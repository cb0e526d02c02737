/** The consumer of authorization messages that keeps the SQL read model of clients, as it runs. */
module ClientConsumer {
  import opened Basics
  import opened ClientReadModel
  import opened Delivery
  import opened ClientStream
  import opened ClientEffects

  method HandleV1(rm: ReadModel, event: EventV1, version: nat) returns (o: Transaction)
    requires Uniform(rm.db)
    modifies rm
    ensures Does(old(rm.db), rm.db, CallV1(event).clientId, CallV1(event).op, version, o)
    ensures EffectV1(old(rm.db), rm.db, event, version, o)
  {
    ghost var before := rm.db;
    match event {
      case ClientAdded(client) => o := rm.UpsertClient(client, version);
      case UserAdded(c, u) => o := rm.AddUser(c, u, version);
      case UserRemoved(c, u) => o := rm.RemoveUser(c, u, version);
      case ClientPurposeAdded(c, p) => o := rm.AddPurpose(c, p, version);
      case ClientPurposeRemoved(c, p) => o := rm.RemovePurpose(c, p, version);
      case KeysAdded(c, keys) => o := rm.AddKeys(c, Storable(keys), version);
      case KeyDeleted(c, kid) => o := rm.DeleteKey(c, kid, version);
      case ClientDeleted(c) => o := rm.DeleteClientById(c, version);
      case KeyRelationshipToUserMigrated(c, kid, u) => o := rm.MigrateKeyRelationshipToUser(c, kid, u, version);
    }
    CallHasEffectV1(before, rm.db, event, version, o);
  }

  method HandleV2(rm: ReadModel, event: EventV2, version: nat) returns (o: Transaction)
    requires Uniform(rm.db)
    modifies rm
    ensures Does(old(rm.db), rm.db, CallV2(event).clientId, CallV2(event).op, version, o)
    ensures EffectV2(old(rm.db), rm.db, event, version, o)
  {
    ghost var before := rm.db;
    match event {
      case ClientDeletedV2(c) => o := rm.DeleteClientById(c, version);
      case _ => o := rm.UpsertClient(event.client, version);
    }
    CallHasEffectV2(before, rm.db, event, version, o);
  }

  method HandleMessage(rm: ReadModel, m: Message) returns (o: Transaction)
    requires Uniform(rm.db)
    modifies rm
    ensures Does(old(rm.db), rm.db, m.Called().clientId, m.Called().op, m.version, o)
  {
    match m
    case V1(event, version) => o := HandleV1(rm, event, version);
    case V2(event, version) => o := HandleV2(rm, event, version);
  }

  lemma {:induction false} RunOn<S, M>(f: Handler<S, M>, log: seq<M>, steps: seq<Step>, step: Step)
    ensures Run(f, log, steps + [step]) == Take(f, log, Run(f, log, steps), step)
  {
    assert (steps + [step])[..|steps|] == steps;
  }

  /** Every client's rows, and the consumer's position, are those of a run of its handler. */
  ghost predicate Follows(db: Tables, position: nat, log: seq<Message>, taken: seq<Step>) {
    forall c: Id :: Run(HandlerOf(c), log, taken) == Progress(View(db, c), position)
  }

  /** A committed transaction is the handler's step of every client; an aborted one is the step of none. */
  lemma SeenBy(before: Tables, now: Tables, m: Message, o: Transaction, c: Id)
    requires Does(before, now, m.Called().clientId, m.Called().op, m.version, o)
    ensures o.Committed? ==> Handle(c, View(before, c), m) == Ok(View(now, c))
    ensures o.Aborted? ==>
              && View(now, c) == View(before, c)
              && (Handle(c, View(before, c), m) == Ok(View(now, c)) || Handle(c, View(before, c), m).Failed?)
  {
  }

  lemma TakenBy(w: Option<Whole>, w': Option<Whole>, position: nat, log: seq<Message>, c: Id, committed: bool,
                commit: bool)
    requires position < |log|
    requires var r := Handle(c, w, log[position]); r == Ok(w') || (!committed && r.Failed? && w' == w)
    ensures Take(HandlerOf(c), log, Progress(w, position), Deliver(committed && commit)) ==
            Progress(w', if committed && commit then position + 1 else position)
  {
  }

  lemma FollowsOn(before: Tables, now: Tables, position: nat, log: seq<Message>, taken: seq<Step>, commit: bool,
                  o: Transaction)
    requires Follows(before, position, log, taken) && position < |log|
    requires Does(before, now, log[position].Called().clientId, log[position].Called().op, log[position].version, o)
    ensures Follows(now, if o.Committed? && commit then position + 1 else position, log,
                    taken + [Deliver(o.Committed? && commit)])
  {
    var step := Deliver(o.Committed? && commit);
    var position' := if o.Committed? && commit then position + 1 else position;
    forall c: Id ensures Run(HandlerOf(c), log, taken + [step]) == Progress(View(now, c), position') {
      RunOn(HandlerOf(c), log, taken, step);
      SeenBy(before, now, log[position], o, c);
      TakenBy(View(before, c), View(now, c), position, log, c, o.Committed?, commit);
    }
  }

  /** The consumer under a schedule: each message is handled and, unless the process dies first, committed; an
      aborted transaction makes the handler throw, so that its message stays uncommitted. */
  method Consume(rm: ReadModel, log: seq<Message>, steps: seq<Step>) returns (position: nat)
    requires Uniform(rm.db) && forall c: Id :: View(rm.db, c) == None
    modifies rm
    ensures Uniform(rm.db)
    ensures position == |log| ==> forall c: Id | Versioned(log, c) :: View(rm.db, c) == RunTo(HandlerOf(c), log, |log|)
  {
    position := 0;
    ghost var taken: seq<Step> := [];
    for i := 0 to |steps|
      invariant Uniform(rm.db) && Follows(rm.db, position, log, taken)
    {
      if steps[i].Rewind? {
        forall c: Id { RunOn(HandlerOf(c), log, taken, Rewind); }
        position, taken := 0, taken + [Rewind];
      } else if position < |log| {
        ghost var before := rm.db;
        var o := HandleMessage(rm, log[position]);
        FollowsOn(before, rm.db, position, log, taken, steps[i].commit, o);
        taken := taken + [Deliver(o.Committed? && steps[i].commit)];
        position := if o.Committed? && steps[i].commit then position + 1 else position;
      }
    }
    forall c: Id | Versioned(log, c) && position == |log| ensures View(rm.db, c) == RunTo(HandlerOf(c), log, |log|) {
      TablesDoNotDependOnSchedule(log, c, taken);
    }
  }
}
