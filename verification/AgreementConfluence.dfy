/**
 Several agreements of one consumer on one e-service share one row of platform-states. Their streams reach
 the consumer in order, but interleaved arbitrarily. The timestamp guard makes the outcome independent of
 the interleaving: the row is the one that the latest agreement's own stream would have produced alone.
 */
module AgreementConfluence {
  import opened Basics
  import opened PlatformModel
  import opened AgreementWriter

  datatype Message = Message(event: EventV2, a: Agreement, version: nat)

  function StepRow(row: Option<AgreementRow>, m: Message): Option<AgreementRow> {
    ActOnRow(row, DecideV2(row, m.event, m.a, m.version))
  }

  /** The row after a log of messages, oldest first. */
  function FinalRow(log: seq<Message>): Option<AgreementRow> {
    if log == [] then None else StepRow(FinalRow(log[..|log| - 1]), log[|log| - 1])
  }

  /** `FinalRow` is what the handler leaves in platform-states, message by message. */
  lemma HandlerStepsRow(s: Store, m: Message)
    ensures HandleV2(s, m.event, m.a, m.version).Ok? ==>
              Lookup(HandleV2(s, m.event, m.a, m.version).value.platform.agreements, m.a.Key())
              == StepRow(Lookup(s.platform.agreements, m.a.Key()), m)
    ensures HandleV2(s, m.event, m.a, m.version).Failed? ==>
              StepRow(Lookup(s.platform.agreements, m.a.Key()), m) == Lookup(s.platform.agreements, m.a.Key())
  {
  }

  function StreamOf(log: seq<Message>, id: Id): seq<Message> {
    if log == [] then []
    else
      var init, last := log[..|log| - 1], log[|log| - 1];
      if last.a.id == id then StreamOf(init, id) + [last] else StreamOf(init, id)
  }

  predicate Opens(m: Message) {
    || m.event == AgreementActivated
    || (m.event == AgreementUpgraded && (m.a.state == ActiveAgreement || m.a.state == Suspended))
  }

  /** Messages that the handler acts on when they are neither stale nor overtaken. */
  predicate Handled(m: Message) {
    m.event != OtherV2 && (m.event == AgreementUpgraded ==> Opens(m))
  }

  function HandledOf(log: seq<Message>): seq<Message> {
    if log == [] then []
    else
      var init, last := log[..|log| - 1], log[|log| - 1];
      if Handled(last) then HandledOf(init) + [last] else HandledOf(init)
  }

  lemma IgnoredLeaves(row: Option<AgreementRow>, m: Message)
    requires !Handled(m)
    ensures StepRow(row, m) == row
  {
  }

  lemma {:induction false} OnlyHandledDecide(log: seq<Message>)
    ensures FinalRow(log) == FinalRow(HandledOf(log))
  {
    if log != [] {
      var init, last := log[..|log| - 1], log[|log| - 1];
      OnlyHandledDecide(init);
      if Handled(last) {
        assert (HandledOf(init) + [last])[..|HandledOf(init)|] == HandledOf(init);
      } else {
        IgnoredLeaves(FinalRow(init), last);
      }
    }
  }

  lemma {:induction false} StreamOfHandled(log: seq<Message>, id: Id)
    ensures StreamOf(HandledOf(log), id) == HandledOf(StreamOf(log, id))
  {
    if log != [] {
      var init, last := log[..|log| - 1], log[|log| - 1];
      StreamOfHandled(init, id);
      var h, s := HandledOf(init), StreamOf(init, id);
      assert (h + [last])[..|h|] == h && (s + [last])[..|s|] == s;
    }
  }

  /** Each message carries the one timestamp of its agreement, wherever the handler looks for it. */
  predicate Stamped(m: Message, stamps: map<Id, int>) {
    && m.a.id in stamps && Timestamp(m.a) == stamps[m.a.id]
    && (m.event == AgreementActivated ==> m.a.activation == Some(stamps[m.a.id]))
    && (m.event == AgreementUpgraded ==> m.a.upgrade == Some(stamps[m.a.id]))
  }

  /** Interleaved streams of handled messages: distinct timestamps, and each begins with an activation or upgrade. */
  ghost predicate WellFormed(log: seq<Message>, stamps: map<Id, int>) {
    && (forall m <- log :: Stamped(m, stamps))
    && (forall x, y :: x in stamps && y in stamps && stamps[x] == stamps[y] ==> x == y)
    && (forall i | 0 <= i < |log| :: StreamOf(log[..i], log[i].a.id) == [] ==> Opens(log[i]))
  }

  lemma WellFormedPrefix(log: seq<Message>, stamps: map<Id, int>)
    requires WellFormed(log, stamps) && log != []
    ensures WellFormed(log[..|log| - 1], stamps)
  {
    var init := log[..|log| - 1];
    forall i | 0 <= i < |init| ensures init[..i] == log[..i] && init[i] == log[i] {}
    assert forall m <- init :: m in log;
  }

  /** Nothing later than `latest` has come. */
  predicate NotLater(log: seq<Message>, stamps: map<Id, int>, latest: Id) {
    latest in stamps && forall m <- log :: m.a.id in stamps && stamps[m.a.id] <= stamps[latest]
  }

  /** The row belongs to an agreement no later than the latest, and to the latest itself once it has come. */
  predicate RowOk(row: Option<AgreementRow>, stamps: map<Id, int>, latest: Id, come: bool)
    requires latest in stamps
  {
    if come then row.Some? && row.value.agreementId == latest && row.value.timestamp == stamps[latest]
    else row.Some? ==> row.value.agreementId != latest && row.value.timestamp < stamps[latest]
  }

  lemma {:induction false} LatestDecides(log: seq<Message>, stamps: map<Id, int>, latest: Id)
    requires WellFormed(log, stamps) && NotLater(log, stamps, latest)
    ensures RowOk(FinalRow(log), stamps, latest, StreamOf(log, latest) != [])
    ensures StreamOf(log, latest) != [] ==> FinalRow(log) == FinalRow(StreamOf(log, latest))
  {
    if log != [] {
      var init, last := log[..|log| - 1], log[|log| - 1];
      WellFormedPrefix(log, stamps);
      assert forall m <- init :: m in log;
      LatestDecides(init, stamps, latest);
      assert Stamped(last, stamps);
      var row, stream := FinalRow(init), StreamOf(init, latest);
      if last.a.id == latest {
        assert StreamOf(log, latest) == stream + [last];
        assert (stream + [last])[..|stream|] == stream;
        if stream == [] {
          assert Opens(log[|log| - 1]);
          OpeningReplaces(row, last, stamps);
        } else {
          LatestKeepsRow(row.value, last, stamps);
        }
      } else {
        OthersNeverReplaceLatest(row, last, stamps, latest, stream != []);
      }
    }
  }

  /** The first message of the latest agreement takes over the row, whatever it held. */
  lemma OpeningReplaces(row: Option<AgreementRow>, m: Message, stamps: map<Id, int>)
    requires Stamped(m, stamps) && Opens(m) && RowOk(row, stamps, m.a.id, false)
    ensures StepRow(row, m) == StepRow(None, m) == Some(RowOf(m.a, stamps[m.a.id], m.version))
  {
  }

  lemma LatestKeepsRow(row: AgreementRow, m: Message, stamps: map<Id, int>)
    requires Stamped(m, stamps) && RowOk(Some(row), stamps, m.a.id, true)
    ensures RowOk(StepRow(Some(row), m), stamps, m.a.id, true)
  {
  }

  lemma OthersNeverReplaceLatest(row: Option<AgreementRow>, m: Message, stamps: map<Id, int>, latest: Id, come: bool)
    requires Stamped(m, stamps) && latest in stamps && stamps[m.a.id] < stamps[latest]
               && RowOk(row, stamps, latest, come)
    ensures RowOk(StepRow(row, m), stamps, latest, come)
    ensures come ==> StepRow(row, m) == row
  {
  }

  /** Confluence: two interleavings of the same streams leave the same row, whatever ignored messages they hold. */
  lemma Confluence(log1: seq<Message>, log2: seq<Message>, stamps: map<Id, int>, latest: Id)
    requires WellFormed(HandledOf(log1), stamps) && WellFormed(HandledOf(log2), stamps)
    requires NotLater(HandledOf(log1), stamps, latest) && StreamOf(HandledOf(log1), latest) != []
    requires forall id: Id :: StreamOf(log1, id) == StreamOf(log2, id)
    ensures FinalRow(log1) == FinalRow(log2) == FinalRow(StreamOf(log1, latest))
  {
    OnlyHandledDecide(log1);
    OnlyHandledDecide(log2);
    OnlyHandledDecide(StreamOf(log1, latest));
    forall id: Id ensures StreamOf(HandledOf(log1), id) == StreamOf(HandledOf(log2), id) {
      StreamOfHandled(log1, id);
      StreamOfHandled(log2, id);
    }
    StreamOfHandled(log1, latest);
    HandledConfluence(HandledOf(log1), HandledOf(log2), stamps, latest);
  }

  lemma HandledConfluence(log1: seq<Message>, log2: seq<Message>, stamps: map<Id, int>, latest: Id)
    requires WellFormed(log1, stamps) && WellFormed(log2, stamps)
    requires NotLater(log1, stamps, latest) && StreamOf(log1, latest) != []
    requires forall id: Id :: StreamOf(log1, id) == StreamOf(log2, id)
    ensures FinalRow(log1) == FinalRow(log2) == FinalRow(StreamOf(log1, latest))
  {
    forall m | m in log2 ensures m.a.id in stamps && stamps[m.a.id] <= stamps[latest] {
      InStream(log2, m);
      FromLog(log1, m.a.id, m);
    }
    LatestDecides(log1, stamps, latest);
    LatestDecides(log2, stamps, latest);
  }

  lemma {:induction false} InStream(log: seq<Message>, m: Message)
    requires m in log
    ensures m in StreamOf(log, m.a.id)
  {
    var init := log[..|log| - 1];
    assert log == init + [log[|log| - 1]];
    if m in init { InStream(init, m); }
  }

  lemma {:induction false} FromLog(log: seq<Message>, id: Id, m: Message)
    requires m in StreamOf(log, id)
    ensures m in log && m.a.id == id
  {
    if log != [] {
      var init := log[..|log| - 1];
      if m in StreamOf(init, id) { FromLog(init, id, m); }
    }
  }

  /** One agreement's own stream, versions in order. */
  ghost predicate Stream(log: seq<Message>, id: Id, stamps: map<Id, int>) {
    && (forall m <- log :: m.a.id == id && Stamped(m, stamps) && Handled(m))
    && (forall i, j | 0 <= i < j < |log| :: log[i].version <= log[j].version)
    && (log != [] ==> Opens(log[0]))
  }

  lemma StreamStep(row: AgreementRow, m: Message, stamps: map<Id, int>)
    requires Stamped(m, stamps) && Handled(m) && row.version <= m.version
    requires row.agreementId == m.a.id && row.timestamp == stamps[m.a.id]
    ensures var row' := StepRow(Some(row), m);
            && row'.Some? && row'.value.agreementId == m.a.id && row'.value.timestamp == stamps[m.a.id]
            && row'.value.state == ItemStateOf(m.a.state) && row'.value.version == m.version
  {
  }

  lemma {:induction false} LastHandledDecides(log: seq<Message>, id: Id, stamps: map<Id, int>)
    requires Stream(log, id, stamps) && log != []
    ensures Leaves(FinalRow(log), log[|log| - 1], stamps)
  {
    var init, last := log[..|log| - 1], log[|log| - 1];
    assert last in log;
    if init == [] {
      OpeningReplaces(None, last, stamps);
    } else {
      assert forall m <- init :: m in log;
      LastHandledDecides(init, id, stamps);
      assert log[|log| - 2].version <= log[|log| - 1].version;
      StreamStep(FinalRow(init).value, last, stamps);
    }
  }

  predicate Leaves(row: Option<AgreementRow>, m: Message, stamps: map<Id, int>) {
    && row.Some? && m.a.id in stamps
    && row.value.agreementId == m.a.id && row.value.timestamp == stamps[m.a.id]
    && row.value.state == ItemStateOf(m.a.state) && row.value.version == m.version
  }

  /** Alone, an agreement's stream leaves the row with the state and version of its last handled message. */
  lemma LastMessageDecides(log: seq<Message>, id: Id, stamps: map<Id, int>)
    requires Stream(HandledOf(log), id, stamps) && HandledOf(log) != []
    ensures Leaves(FinalRow(log), HandledOf(log)[|HandledOf(log)| - 1], stamps)
  {
    OnlyHandledDecide(log);
    LastHandledDecides(HandledOf(log), id, stamps);
  }
}
