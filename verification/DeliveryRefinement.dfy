/** The SQL repository and the dictionary repository are one contract. */
module DeliveryRefinement {
  import opened Common
  import opened DeliveryModel
  import M = DeliveryMemory
  import S = DeliverySql

  /** A record and a row stand for the same delivery. Owner and lease of a completed delivery are
      ignored: the SQL form clears them, the dictionary keeps them. */
  predicate Matches(record: M.DeliveryRecord, row: S.SqlRow) {
    && record.peerId == row.peerId
    && record.state == row.state
    && record.result == S.RowResult(row)
    && record.errorCode == row.errorCode
    && record.fence == row.fence
    && (record.state != Completed ==> record.owner == row.ownerId && record.leaseExpiresAt == row.leaseExpiresAt)
  }

  ghost predicate StoresMatch(records: M.Records, table: S.Table) {
    && records.Keys == table.Keys
    && forall k <- records :: Matches(records[k], table[k])
  }

  function RunMemory(records: M.Records, calls: seq<Call>): (M.Records, seq<Reply>)
    decreases |calls|
  {
    if calls == [] then (records, [])
    else
      var (records', reply) := M.Apply(records, calls[0]);
      var (end, replies) := RunMemory(records', calls[1..]);
      (end, [reply] + replies)
  }

  function RunSql(table: S.Table, calls: seq<Call>): (S.Table, seq<Reply>)
    decreases |calls|
  {
    if calls == [] then (table, [])
    else
      var (table', reply) := S.Apply(table, calls[0]);
      var (end, replies) := RunSql(table', calls[1..]);
      (end, [reply] + replies)
  }

  /** The same call on matching stores: equal replies, and stores that match again. */
  ghost predicate CallRefines(records: M.Records, table: S.Table, call: Call) {
    && M.Apply(records, call).1 == S.Apply(table, call).1
    && StoresMatch(M.Apply(records, call).0, S.Apply(table, call).0)
  }

  lemma ReserveRefines(records: M.Records, table: S.Table, call: Call)
    requires StoresMatch(records, table) && call.op.Reserve?
    ensures CallRefines(records, table, call)
  {
    var key := call.op.cmd.key;
    if key in records {
      assert Matches(records[key], table[key]);
    }
  }

  lemma CompleteRefines(records: M.Records, table: S.Table, call: Call)
    requires StoresMatch(records, table) && call.op.Complete?
    ensures CallRefines(records, table, call)
  {
    var key := call.op.cmd.key;
    if key in records {
      assert Matches(records[key], table[key]);
    }
  }

  lemma MarkUncertainRefines(records: M.Records, table: S.Table, call: Call)
    requires StoresMatch(records, table) && call.op.MarkUncertain?
    ensures CallRefines(records, table, call)
  {
    var key := call.op.cmd.key;
    if key in records {
      assert Matches(records[key], table[key]);
    }
  }

  lemma RenewRefines(records: M.Records, table: S.Table, call: Call)
    requires StoresMatch(records, table) && call.op.Renew?
    ensures CallRefines(records, table, call)
  {
    var key := call.op.cmd.key;
    if key in records {
      assert Matches(records[key], table[key]);
    }
  }

  lemma AllowResendRefines(records: M.Records, table: S.Table, call: Call)
    requires StoresMatch(records, table) && call.op.AllowResend?
    ensures CallRefines(records, table, call)
  {
    var key := call.op.cmd.key;
    if key in records {
      assert Matches(records[key], table[key]);
    }
  }

  lemma StepRefines(records: M.Records, table: S.Table, call: Call)
    requires StoresMatch(records, table)
    ensures M.Apply(records, call).1 == S.Apply(table, call).1
    ensures StoresMatch(M.Apply(records, call).0, S.Apply(table, call).0)
  {
    hide M.Apply, S.Apply, StoresMatch;
    match call.op
    case Reserve(_, _) => ReserveRefines(records, table, call);
    case Complete(_, _, _) => CompleteRefines(records, table, call);
    case MarkUncertain(_, _, _) => MarkUncertainRefines(records, table, call);
    case Renew(_, _, _) => RenewRefines(records, table, call);
    case AllowResend(_, _) => AllowResendRefines(records, table, call);
  }

  /** Whatever any owners do at any times, the two repositories give the same answers. */
  lemma {:induction false} SqlRefinesMemory(records: M.Records, table: S.Table, calls: seq<Call>)
    requires StoresMatch(records, table)
    ensures RunMemory(records, calls).1 == RunSql(table, calls).1
    ensures StoresMatch(RunMemory(records, calls).0, RunSql(table, calls).0)
    decreases |calls|
  {
    if calls != [] {
      StepRefines(records, table, calls[0]);
      SqlRefinesMemory(M.Apply(records, calls[0]).0, S.Apply(table, calls[0]).0, calls[1..]);
    }
  }
}
