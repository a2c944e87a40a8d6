/** The two message handlers of the worker as they run from start to end. `Pipeline` has the same
    handlers cut at every `await`, to be interleaved; here each is one method over the state it uses,
    and a run of the protocol. */
module Worker {
  import opened Entities
  import opened Json
  import opened Cache
  import opened Pre
  import opened Pipeline
  import opened PipelineResults
  import opened FanOut

  /** Expands a status update into one message for each indexed grant. `members` is the stream's
      index in the order Redis lists it; a grant in `rejected` has an await that fails, which the
      loop catches. */
  method HandleStatusUpdateEvent(members: seq<IndexEntry>, keys: map<Id, string>, update: Update, rejected: set<Id>)
    returns (sent: seq<PreTask>)
    ensures sent == TasksOf(members, keys, update, rejected)
  {
    sent := [];
    for i := 0 to |members|
      invariant sent == TasksOf(members[..i], keys, update, rejected)
    {
      assert members[..i + 1][..i] == members[..i];
      var grant := members[i].grant;
      if grant.id in rejected {
        continue;
      }
      var reEncryptionKey := Get(keys, grant.id);
      if !Truthy(reEncryptionKey) {
        continue;
      }
      sent := sent + [PreTask(update, grant.recipientId, reEncryptionKey, grant.id)];
    }
    assert members[..|members|] == members;
  }

  /** If the grant is of the update's stream, its message was sent once, or not at all where its key reads as nothing. */
  ghost predicate SentOnce(b: Base, u: Update, id: Id, sent: seq<PreTask>) {
    id in b.issued && (b.issued[id].streamId == u.streamId ==>
      var key := Loaded(b.issued[id].reEncryptionKey);
      multiset(sent)[PreTask(u, b.issued[id].recipientId, key, id)] == if Truthy(key) then 1 else 0)
  }

  /** Handling a delivered update of any reachable state, in whatever order Redis lists the index: what
      is sent is what a run of the protocol sends, and without failures it holds exactly one message for
      each committed grant of the stream that is indexed once and whose key reads as something. */
  method FanOutOfReachableState(ghost lib: Library, ghost s: State, members: seq<IndexEntry>, keys: map<Id, string>, u: Update,
                                rejected: set<Id>)
    returns (sent: seq<PreTask>)
    requires Lawful(lib) && Reachable(lib, s) && keys == s.base.keys && u in s.statusQueue
    requires forall i, j :: 0 <= i < j < |members| ==> members[i] != members[j]
    requires forall m :: m in members <==> m in Members(s.base, u.streamId)
    ensures s.base.committed <= s.base.issued.Keys
    ensures Leads(lib, s, [DeliverUpdate(u), ReadIndex(u)] + LoopSteps(u, members, keys, rejected),
      s.(preQueue := s.preQueue + multiset(sent)))
    ensures rejected == {} ==> forall id <- s.base.committed :: IndexedOnce(s.base, id) ==> SentOnce(s.base, u, id, sent)
    ensures rejected == {} ==> forall id <- s.base.committed ::
      var g := s.base.issued[id];
      IndexedOnce(s.base, id) && g.streamId == u.streamId ==>
        && (g.reEncryptionKey != "" && !IsJsonText(g.reEncryptionKey) ==>
              multiset(sent)[PreTask(u, g.recipientId, Str(g.reEncryptionKey), id)] == 1)
        && (g.reEncryptionKey == "" ==> forall t <- sent :: t.grantId != id)
  {
    ReachableInv(lib, s);
    sent := HandleStatusUpdateEvent(members, keys, u, rejected);
    HandlerLoopIsARun(lib, s, u, members, rejected);
    hide Leads, TasksOf, LoopSteps, Truthy, Loaded;
    if rejected == {} {
      forall id <- s.base.committed | IndexedOnce(s.base, id) ensures SentOnce(s.base, u, id, sent) {
        EveryCommittedGrantIsIndexed(lib, s, id);
        if s.base.issued[id].streamId == u.streamId {
          EachEntryIsSentOnce(members, keys, u, IndexEntry(s.base.issued[id], false));
        }
      }
      forall id <- s.base.committed | IndexedOnce(s.base, id) && s.base.issued[id].streamId == u.streamId
        ensures var g := s.base.issued[id];
          && (g.reEncryptionKey != "" && !IsJsonText(g.reEncryptionKey) ==>
                multiset(sent)[PreTask(u, g.recipientId, Str(g.reEncryptionKey), id)] == 1)
          && (g.reEncryptionKey == "" ==> forall t <- sent :: t.grantId != id)
      {
        var g := s.base.issued[id];
        EveryCommittedGrantIsIndexed(lib, s, id);
        assert SentOnce(s.base, u, id, sent);
        PlainKeyPasses(g.reEncryptionKey);
        if g.reEncryptionKey == "" {
          NothingIsSentTo(members, keys, u, id);
        }
      }
    }
  }

  // ----- Re-encrypting one message -----

  /** What the handler makes of one message: whether the recipient listens, what is re-encrypted, and
      which of the cache write and the publication fail. */
  datatype Circumstances = Circumstances(listening: bool, setFails: bool, publishFails: bool)

  function PayloadsAfter(lib: Library, payloads: map<Entry, string>, t: PreTask, x: Circumstances): map<Entry, string> {
    var c := ReEncryptPayload(lib, t.update.payload, t.reEncryptionKey);
    if x.listening && c.Some? && !x.setFails then payloads[EntryFor(t) := c.value] else payloads
  }

  function PublishedAfter(lib: Library, published: seq<Publication>, t: PreTask, x: Circumstances): seq<Publication> {
    var c := ReEncryptPayload(lib, t.update.payload, t.reEncryptionKey);
    if x.listening && c.Some? && !x.setFails && !x.publishFails then published + [Message(t, c.value)] else published
  }

  /** The worker's side of the payload cache and the channels. */
  class PreSubscriber {
    var payloads: map<Entry, string>
    var published: seq<Publication>

    constructor ()
      ensures payloads == map[] && published == []
    {
      payloads, published := map[], [];
    }

    /** Re-encrypts one message, caches the payload and publishes it, if the recipient is among the
        occupants of the grant's channel. `occupants` is None when the presence request failed,
        which makes the handler throw. An error of the cache is logged; one of the publication is
        logged too, and the message is lost. */
    method HandlePREEvent(lib: Library, update: PreTask, occupants: Option<seq<Id>>, setFails: bool, publishFails: bool)
      returns (completed: bool)
      modifies this
      ensures completed <==> occupants.Some?
      ensures var x := Circumstances(occupants.Some? && update.recipientId in occupants.value, setFails, publishFails);
        && payloads == PayloadsAfter(lib, old(payloads), update, x)
        && published == PublishedAfter(lib, old(published), update, x)
      ensures var c := ReEncryptPayload(lib, update.update.payload, update.reEncryptionKey);
        var u, goesOn := update.update, occupants.Some? && update.recipientId in occupants.value && c.Some? && !setFails;
        && (goesOn ==> payloads == old(payloads)[Entry(update.recipientId, u.streamId, u.id) := c.value])
        && (goesOn && !publishFails ==>
              published == old(published) + [Publication(update.grantId, u.id, update.recipientId, u.streamId, u.recordedAt, c.value)])
        && (!goesOn ==> payloads == old(payloads))
        && (!goesOn || publishFails ==> published == old(published))
    {
      match occupants {
        case None => return false;
        case Some(os) =>
          if !(exists o :: o in os && o == update.recipientId) {
            return true;
          }
          var reencrypted := ReEncryptPayload(lib, update.update.payload, update.reEncryptionKey);
          if reencrypted.None? || setFails {
            return true;
          }
          var key := EntryFor(update);
          payloads := payloads[key := reencrypted.value];
          if !publishFails {
            published := published + [Message(update, reencrypted.value)];
          }
          return true;
      }
    }
  }

  /** The steps a message's handling is cut into. */
  function HandlerSteps(lib: Library, t: PreTask, x: Circumstances): seq<Step> {
    if !x.listening then [DeliverTask(t), Fail(PreStarted(t))]
    else
      [DeliverTask(t), FindListener(t)] +
      match ReEncryptPayload(lib, t.update.payload, t.reEncryptionKey)
      case None => [StorePayload(t)]
      case Some(c) =>
        if x.setFails then [Fail(PreListening(t))]
        else [StorePayload(t), if x.publishFails then Fail(PrePublishing(t, c)) else Publish(t, c)]
  }

  /** The handler run alone is one of the interleavings, whichever way it goes: the steps it is cut into
      lead to the state the method describes. */
  lemma HandlerIsARun(lib: Library, s: State, t: PreTask, x: Circumstances)
    requires t in s.preQueue
    ensures Leads(lib, s, HandlerSteps(lib, t, x),
      s.(payloads := PayloadsAfter(lib, s.payloads, t, x), published := PublishedAfter(lib, s.published, t, x)))
  {
    hide Leads, Enabled, Apply, ReEncryptPayload;
    var s1 := Began(s, PreStarted(t));
    DeliveryStep(lib, s, t);
    GoesThrough(s.procs, PreStarted(t), PreListening(t));
    if !x.listening {
      assert Ended(s1, PreStarted(t)) == s;
      FailStep(lib, s1, PreStarted(t));
      OneStep(lib, s1, Fail(PreStarted(t)), s);
      OneStepMore(lib, s, DeliverTask(t), [Fail(PreStarted(t))], s);
      assert [DeliverTask(t)] + [Fail(PreStarted(t))] == HandlerSteps(lib, t, x);
    } else {
      var s2 := s.(procs := s.procs + multiset{PreListening(t)});
      assert Becomes(s1, PreStarted(t), PreListening(t)) == s2;
      ListenerStep(lib, s1, t);
      RestIsARun(lib, s, t, x);
      var rest := HandlerSteps(lib, t, x)[2..];
      var s' := s.(payloads := PayloadsAfter(lib, s.payloads, t, x), published := PublishedAfter(lib, s.published, t, x));
      OneStepMore(lib, s1, FindListener(t), rest, s');
      OneStepMore(lib, s, DeliverTask(t), [FindListener(t)] + rest, s');
      assert [DeliverTask(t)] + ([FindListener(t)] + rest) == HandlerSteps(lib, t, x);
    }
  }

  lemma RestIsARun(lib: Library, s: State, t: PreTask, x: Circumstances)
    requires x.listening
    ensures Leads(lib, s.(procs := s.procs + multiset{PreListening(t)}), HandlerSteps(lib, t, x)[2..],
      s.(payloads := PayloadsAfter(lib, s.payloads, t, x), published := PublishedAfter(lib, s.published, t, x)))
  {
    hide Leads, Enabled, Apply, ReEncryptPayload;
    var p, s2 := PreListening(t), s.(procs := s.procs + multiset{PreListening(t)});
    assert p in s2.procs;
    GoesThrough(s.procs, p, p);
    assert Ended(s2, p) == s;
    match ReEncryptPayload(lib, t.update.payload, t.reEncryptionKey)
    case None =>
      StoreStep(lib, s2, t);
      OneStep(lib, s2, StorePayload(t), s);
      assert HandlerSteps(lib, t, x)[2..] == [StorePayload(t)];
    case Some(c) =>
      if x.setFails {
        FailStep(lib, s2, p);
        OneStep(lib, s2, Fail(p), s);
        assert HandlerSteps(lib, t, x)[2..] == [Fail(p)];
      } else {
        var last := if x.publishFails then Fail(PrePublishing(t, c)) else Publish(t, c);
        assert HandlerSteps(lib, t, x)[2..] == [StorePayload(t), last];
        StoringIsARun(lib, s, t, c, x);
      }
  }

  lemma StoringIsARun(lib: Library, s: State, t: PreTask, c: string, x: Circumstances)
    requires ReEncryptPayload(lib, t.update.payload, t.reEncryptionKey) == Some(c)
    ensures var last := if x.publishFails then Fail(PrePublishing(t, c)) else Publish(t, c);
      Leads(lib, s.(procs := s.procs + multiset{PreListening(t)}), [StorePayload(t), last],
        s.(payloads := s.payloads[EntryFor(t) := c], published := if x.publishFails then s.published else s.published + [Message(t, c)]))
  {
    hide Leads, Enabled, Apply, ReEncryptPayload, Message, EntryFor;
    var p, q := PreListening(t), PrePublishing(t, c);
    var s2 := s.(procs := s.procs + multiset{p});
    var s3 := s.(payloads := s.payloads[EntryFor(t) := c], procs := s.procs + multiset{q});
    var s4 := s.(payloads := s.payloads[EntryFor(t) := c], published := if x.publishFails then s.published else s.published + [Message(t, c)]);
    assert p in s2.procs && q in s3.procs;
    GoesThrough(s.procs, p, q);
    StoreStep(lib, s2, t);
    assert Becomes(s2.(payloads := s2.payloads[EntryFor(t) := c]), p, q) == s3;
    var last := if x.publishFails then Fail(q) else Publish(t, c);
    FailStep(lib, s3, q);
    PublishStep(lib, s3, t, c);
    assert Ended(if x.publishFails then s3 else s3.(published := s3.published + [Message(t, c)]), q) == s4;
    OneStep(lib, s3, last, s4);
    OneStepMore(lib, s2, StorePayload(t), [last], s4);
    assert [StorePayload(t)] + [last] == [StorePayload(t), last];
  }

  lemma DeliveryStep(lib: Library, s: State, t: PreTask)
    requires t in s.preQueue
    ensures Enabled(s, DeliverTask(t)) && Apply(lib, s, DeliverTask(t)) == Began(s, PreStarted(t))
  {
  }

  lemma ListenerStep(lib: Library, s: State, t: PreTask)
    requires PreStarted(t) in s.procs
    ensures Enabled(s, FindListener(t)) && Apply(lib, s, FindListener(t)) == Becomes(s, PreStarted(t), PreListening(t))
  {
  }

  lemma StoreStep(lib: Library, s: State, t: PreTask)
    requires PreListening(t) in s.procs
    ensures Enabled(s, StorePayload(t))
    ensures Apply(lib, s, StorePayload(t)) ==
      match ReEncryptPayload(lib, t.update.payload, t.reEncryptionKey)
      case None => Ended(s, PreListening(t))
      case Some(c) => Becomes(s.(payloads := s.payloads[EntryFor(t) := c]), PreListening(t), PrePublishing(t, c))
  {
    hide ReEncryptPayload;
  }

  lemma PublishStep(lib: Library, s: State, t: PreTask, c: string)
    requires PrePublishing(t, c) in s.procs
    ensures Enabled(s, Publish(t, c))
    ensures Apply(lib, s, Publish(t, c)) == Ended(s.(published := s.published + [Message(t, c)]), PrePublishing(t, c))
  {
  }

  lemma FailStep(lib: Library, s: State, p: Proc)
    requires p in s.procs
    ensures Enabled(s, Fail(p)) && Apply(lib, s, Fail(p)) == Ended(s, p)
  {
  }
}
