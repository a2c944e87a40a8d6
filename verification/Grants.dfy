/** Creating, modifying and deleting grants, and the channel groups that mirror them: a recipient
    listens to one group per stream type, which holds one channel for each of its live grants.

    The tables hold canonical ids. A request may spell them in upper case; the group is named after
    the recipient as it was sent. */
module Grants {
  import opened Entities
  import Coverage

  datatype Stream = Stream(ownerId: Id, streamType: string)

  /** What a caller asks to be granted, with the ids as they were sent; the owner is filled in by the service. */
  datatype GrantDto = GrantDto(
    kind: GrantType, streamId: Id, recipientId: Id, fromDate: Instant, toDate: Instant, reEncryptionKey: string)

  datatype Scope = CreateHistorical | CreateLive

  datatype Error =
    | InvalidTokenScope | SingletonGrantExists | BadRequest | GrantNotFound | OperationNotAllowed
    | ChannelGroupAdditionFailed | PushNotificationFailed | ChannelGroupRemovalFailed

  /** Where the subscriber that runs inside the inserting transaction may fail: on adding the channel
      to its group, or afterwards on the notification that only a `latest` grant sends. */
  datatype SaveFault = NoFault | OnJoining | OnNotifying

  datatype Result = Done(grant: Grant) | Failed(error: Error)

  type Groups = map<string, set<string>>

  function Channel(id: Id): string { "grant_" + id }

  function GroupName(streamType: string, recipientId: Id): string { streamType + "_" + recipientId }

  /** Recipient ids all have one length, so a group's name tells its stream type and recipient,
      even where a type has underscores of its own. */
  lemma GroupNamesAreDistinct(t: string, r: Id, t': string, r': Id)
    requires |r| == |r'|
    ensures GroupName(t, r) == GroupName(t', r') <==> t == t' && r == r'
  {
    var n := GroupName(t, r);
    assert n[|t| + 1..] == r && n[..|t|] == t;
    if n == GroupName(t', r') {
      assert |t| == |t'|;
      assert n[|t'| + 1..] == r' && n[..|t'|] == t';
    }
  }

  lemma ChannelsAreDistinct(a: Id, b: Id)
    ensures Channel(a) == Channel(b) <==> a == b
  {
    assert Channel(a)[6..] == a && Channel(b)[6..] == b;
  }

  function InGroup(groups: Groups, name: string): set<string> {
    if name in groups then groups[name] else {}
  }

  function AddChannel(groups: Groups, name: string, channel: string): Groups {
    groups[name := InGroup(groups, name) + {channel}]
  }

  function RemoveChannel(groups: Groups, name: string, channel: string): Groups {
    groups[name := InGroup(groups, name) - {channel}]
  }

  /** The grants of a recipient on streams of one type. */
  ghost predicate ListensTo(streams: map<Id, Stream>, g: Grant, streamType: string, recipientId: Id) {
    g.streamId in streams && streams[g.streamId].streamType == streamType && g.recipientId == recipientId
  }

  /** The channels in the group of a type and a recipient are exactly those of its live grants. */
  ghost predicate Mirrors(streams: map<Id, Stream>, grants: map<Id, Grant>, groups: Groups, streamType: string, recipientId: Id) {
    forall id :: Channel(id) in InGroup(groups, GroupName(streamType, recipientId)) <==>
      id in grants && ListensTo(streams, grants[id], streamType, recipientId)
  }

  const ID_LENGTH := 36

  ghost predicate Mirrored(streams: map<Id, Stream>, grants: map<Id, Grant>, groups: Groups) {
    forall streamType, recipientId :: |recipientId| == ID_LENGTH ==> Mirrors(streams, grants, groups, streamType, recipientId)
  }

  /** Adding a grant's row and adding its channel to the group of the recipient that was sent go together
      iff the recipient was sent as it is stored. */
  lemma AddingMirrorsIff(streams: map<Id, Stream>, grants: map<Id, Grant>, groups: Groups, g: Grant)
    requires Mirrored(streams, grants, groups)
    requires g.id !in grants && Canon(g.streamId) in streams && |g.recipientId| == ID_LENGTH
    ensures Mirrored(streams, grants[g.id := AsRow(g)],
      AddChannel(groups, GroupName(streams[Canon(g.streamId)].streamType, g.recipientId), Channel(g.id)))
      <==> Canonical(g.recipientId)
  {
    var own, row := streams[Canon(g.streamId)].streamType, AsRow(g);
    var grants', groups' := grants[g.id := row], AddChannel(groups, GroupName(own, g.recipientId), Channel(g.id));
    hide Canonical;
    if Canonical(g.recipientId) {
      forall t, r | |r| == ID_LENGTH ensures Mirrors(streams, grants', groups', t, r) {
        assert Mirrors(streams, grants, groups, t, r);
        GroupNamesAreDistinct(t, r, own, g.recipientId);
        forall id ensures Channel(id) in InGroup(groups', GroupName(t, r)) <==>
          id in grants' && ListensTo(streams, grants'[id], t, r)
        {
          ChannelsAreDistinct(id, g.id);
        }
      }
    } else {
      assert Channel(g.id) in InGroup(groups', GroupName(own, g.recipientId));
      assert !ListensTo(streams, grants'[g.id], own, g.recipientId);
      assert !Mirrors(streams, grants', groups', own, g.recipientId);
    }
  }

  function AfterRemoval(groups: Groups, g: Grant, found: Stream): Groups {
    RemoveChannel(groups, GroupName(found.streamType, g.recipientId), Channel(g.id))
  }

  /** Deleting a grant keeps the mirror iff the channel was taken out of a group of the type its stream has. */
  lemma RemovingMirrorsIff(streams: map<Id, Stream>, grants: map<Id, Grant>, groups: Groups, g: Grant, found: Stream)
    requires Mirrored(streams, grants, groups)
    requires g.id in grants && grants[g.id] == g && g.streamId in streams && |g.recipientId| == ID_LENGTH
    ensures Mirrored(streams, grants - {g.id}, AfterRemoval(groups, g, found))
      <==> found.streamType == streams[g.streamId].streamType
  {
    var own := streams[g.streamId].streamType;
    var groups', grants' := AfterRemoval(groups, g, found), grants - {g.id};
    assert Mirrors(streams, grants, groups, own, g.recipientId);
    assert Channel(g.id) in InGroup(groups, GroupName(own, g.recipientId));
    if found.streamType == own {
      forall t, r | |r| == ID_LENGTH ensures Mirrors(streams, grants', groups', t, r) {
        assert Mirrors(streams, grants, groups, t, r);
        GroupNamesAreDistinct(t, r, own, g.recipientId);
        forall id ensures Channel(id) in InGroup(groups', GroupName(t, r)) <==> id in grants' && ListensTo(streams, grants'[id], t, r) {
          ChannelsAreDistinct(id, g.id);
        }
      }
    } else {
      GroupNamesAreDistinct(found.streamType, g.recipientId, own, g.recipientId);
      assert Channel(g.id) in InGroup(groups', GroupName(own, g.recipientId));
      assert !Mirrors(streams, grants', groups', own, g.recipientId);
    }
  }

  /** The stream that `removeFromChannelGroup` finds. A grant that was loaded without its stream id makes
      the lookup a query without a condition, which finds whichever stream the database lists first. */
  function LookedUp(streams: map<Id, Stream>, g: Grant, streamLoaded: bool, first: Id): Stream
    requires g.streamId in streams && first in streams
  {
    if streamLoaded then streams[g.streamId] else streams[first]
  }

  /** With its stream id loaded, deleting a grant always keeps the mirror. Without it, deleting keeps the
      mirror whichever stream is listed first iff all streams have the type of the grant's own. */
  lemma DeletionKeepsTheMirrorIff(streams: map<Id, Stream>, grants: map<Id, Grant>, groups: Groups, g: Grant, streamLoaded: bool)
    requires Mirrored(streams, grants, groups)
    requires g.id in grants && grants[g.id] == g && g.streamId in streams && |g.recipientId| == ID_LENGTH
    ensures (forall first <- streams ::
               Mirrored(streams, grants - {g.id}, AfterRemoval(groups, g, LookedUp(streams, g, streamLoaded, first))))
      <==> streamLoaded || forall st <- streams :: streams[st].streamType == streams[g.streamId].streamType
  {
    hide Mirrored, AfterRemoval;
    forall first <- streams
      ensures Mirrored(streams, grants - {g.id}, AfterRemoval(groups, g, LookedUp(streams, g, streamLoaded, first)))
        <==> LookedUp(streams, g, streamLoaded, first).streamType == streams[g.streamId].streamType
    {
      RemovingMirrorsIff(streams, grants, groups, g, LookedUp(streams, g, streamLoaded, first));
    }
  }

  /** Another window leaves the mirror alone. */
  lemma ModifyingMirrors(streams: map<Id, Stream>, grants: map<Id, Grant>, groups: Groups, g: Grant)
    requires Mirrored(streams, grants, groups) && g.id in grants
    requires g.streamId == grants[g.id].streamId && g.recipientId == grants[g.id].recipientId
    ensures Mirrored(streams, grants[g.id := g], groups)
  {
    var grants' := grants[g.id := g];
    forall t, r | |r| == ID_LENGTH ensures Mirrors(streams, grants', groups, t, r) {
      assert Mirrors(streams, grants, groups, t, r);
    }
  }

  // ----- What every grant in the table satisfies -----

  /** The grant was issued by its stream's owner, and the stream's type supports its type. */
  ghost predicate WellIssued(streams: map<Id, Stream>, supported: map<string, set<GrantType>>, g: Grant) {
    && g.streamId in streams && |g.recipientId| == ID_LENGTH && Canonical(g.recipientId)
    && var s := streams[g.streamId];
    && g.ownerId == s.ownerId && s.streamType in supported && g.kind in supported[s.streamType]
  }

  ghost predicate AllWellIssued(streams: map<Id, Stream>, supported: map<string, set<GrantType>>, grants: map<Id, Grant>) {
    forall id <- grants :: grants[id].id == id && WellIssued(streams, supported, grants[id])
  }

  predicate SameLatest(g: Grant, h: Grant) {
    && g.kind == Latest && h.kind == Latest
    && g.streamId == h.streamId && g.ownerId == h.ownerId && g.recipientId == h.recipientId
  }

  /** No two `latest` grants have the same stream, owner and recipient. */
  ghost predicate LatestIsUnique(grants: map<Id, Grant>) {
    forall a <- grants, b <- grants :: SameLatest(grants[a], grants[b]) ==> a == b
  }

  /** The `latest` grants that stand in the way of another one. */
  function Existing(grants: map<Id, Grant>, streamId: Id, ownerId: Id, recipientId: Id): set<Id> {
    set id | id in grants && grants[id].kind == Latest && grants[id].streamId == streamId
             && grants[id].ownerId == ownerId && grants[id].recipientId == recipientId
  }

  /** Which error, if any, a request meets before its stream is looked up. */
  function CheckRefusal(grants: map<Id, Grant>, uuid: Id, dto: GrantDto, scopes: set<Scope>): Option<Error> {
    if dto.kind != Latest && CreateHistorical !in scopes then Some(InvalidTokenScope)
    else if dto.kind != Range && CreateLive !in scopes then Some(InvalidTokenScope)
    else if dto.kind != Range && Existing(grants, Canon(dto.streamId), uuid, Canon(dto.recipientId)) != {} then Some(SingletonGrantExists)
    else None
  }

  /** Which error, if any, it meets once its stream is looked up. */
  function StreamRefusal(streams: map<Id, Stream>, supported: map<string, set<GrantType>>, uuid: Id, dto: GrantDto): Option<Error> {
    var st := Canon(dto.streamId);
    if st !in streams || streams[st].ownerId != uuid
       || streams[st].streamType !in supported || dto.kind !in supported[streams[st].streamType]
    then Some(BadRequest)
    else None
  }

  function Refusal(streams: map<Id, Stream>, supported: map<string, set<GrantType>>, grants: map<Id, Grant>,
                   uuid: Id, dto: GrantDto, scopes: set<Scope>): Option<Error> {
    var refusal := CheckRefusal(grants, uuid, dto, scopes);
    if refusal.Some? then refusal else StreamRefusal(streams, supported, uuid, dto)
  }

  lemma NothingExistsIff(grants: map<Id, Grant>, streamId: Id, ownerId: Id, recipientId: Id)
    ensures Existing(grants, streamId, ownerId, recipientId) == {} <==> forall id <- grants ::
              var g := grants[id];
              g.kind != Latest || g.streamId != streamId || g.ownerId != ownerId || g.recipientId != recipientId
  {
    var existing := Existing(grants, streamId, ownerId, recipientId);
    assert forall id <- grants ::
      (id in existing <==>
       && grants[id].kind == Latest && grants[id].streamId == streamId
       && grants[id].ownerId == ownerId && grants[id].recipientId == recipientId);
    assert existing != {} ==> exists id :: id in existing;
  }

  /** The entity that a request inserts. */
  function NewGrant(uuid: Id, dto: GrantDto, id: Id): Grant {
    Grant(id, dto.streamId, uuid, dto.recipientId, dto.kind, dto.fromDate, dto.toDate, dto.reEncryptionKey)
  }

  /** Inserting a grant keeps `latest` grants unique iff nothing stands in its way at that moment. */
  lemma InsertKeepsLatestUniqueIff(grants: map<Id, Grant>, g: Grant)
    requires LatestIsUnique(grants) && g.id !in grants
    ensures LatestIsUnique(grants[g.id := g]) <==>
            (g.kind == Latest ==> Existing(grants, g.streamId, g.ownerId, g.recipientId) == {})
  {
    var grants' := grants[g.id := g];
    var existing := Existing(grants, g.streamId, g.ownerId, g.recipientId);
    assert forall id <- grants :: SameLatest(g, grants[id]) ==> id in existing;
    if g.kind == Latest && existing != {} {
      var id :| id in existing;
      assert id in grants' && g.id in grants' && SameLatest(grants'[id], grants'[g.id]);
    }
  }

  /** No grant is on a stream that has only now been created. */
  lemma NewStreamMirrors(streams: map<Id, Stream>, supported: map<string, set<GrantType>>, grants: map<Id, Grant>,
                         groups: Groups, id: Id, stream: Stream)
    requires Mirrored(streams, grants, groups) && AllWellIssued(streams, supported, grants) && id !in streams
    ensures Mirrored(streams[id := stream], grants, groups)
  {
    var streams' := streams[id := stream];
    forall t, r | |r| == ID_LENGTH ensures Mirrors(streams', grants, groups, t, r) {
      assert Mirrors(streams, grants, groups, t, r);
    }
  }

  // ----- The service -----

  class GrantService {
    var streams: map<Id, Stream>
    var supported: map<string, set<GrantType>>
    var grants: map<Id, Grant>
    var groups: Groups

    /** What every run keeps, failures included. */
    ghost predicate Valid()
      reads this
    {
      AllWellIssued(streams, supported, grants) && LatestIsUnique(grants)
    }

    /** What failure-free runs keep besides. */
    ghost predicate InStep()
      reads this
    {
      Mirrored(streams, grants, groups)
    }

    constructor (streams: map<Id, Stream>, supported: map<string, set<GrantType>>)
      ensures Valid() && InStep() && grants == map[] && this.streams == streams && this.supported == supported
    {
      this.streams, this.supported, grants, groups := streams, supported, map[], map[];
    }

    method CreateStreamType(streamType: string, kinds: set<GrantType>)
      requires Valid() && streamType !in supported
      modifies this`supported
      ensures Valid() && (old(InStep()) ==> InStep())
      ensures supported == old(supported)[streamType := kinds]
    {
      supported := supported[streamType := kinds];
    }

    method CreateStream(id: Id, stream: Stream)
      requires Valid() && id !in streams && Canonical(id)
      modifies this`streams
      ensures Valid() && (old(InStep()) ==> InStep())
      ensures streams == old(streams)[id := stream]
    {
      if old(InStep()) { NewStreamMirrors(streams, supported, grants, groups, id, stream); }
      streams := streams[id := stream];
    }

    /** Creates a grant, with nothing happening between its awaits; `GrantRuns` lets anything happen
        there. `freshId` is the id the database generates. A fault of the subscriber rolls the insert
        back, but a channel that is in its group by then stays there. */
    method Save(uuid: Id, dto: GrantDto, scopes: set<Scope>, freshId: Id, fault: SaveFault) returns (r: Result)
      requires Valid() && freshId !in grants && |dto.recipientId| == ID_LENGTH
      modifies this`grants, this`groups
      ensures Valid()
      ensures var refusal := Refusal(streams, supported, old(grants), uuid, dto, scopes);
        var g := NewGrant(uuid, dto, freshId);
        && r == (if refusal.Some? then Failed(refusal.value)
                 else if fault == OnJoining then Failed(ChannelGroupAdditionFailed)
                 else if fault == OnNotifying && dto.kind == Latest then Failed(PushNotificationFailed)
                 else Done(g))
        && grants == (if r.Done? then old(grants)[freshId := AsRow(g)] else old(grants))
        && groups == (if r.Done? || r == Failed(PushNotificationFailed)
                      then AddChannel(old(groups), GroupName(streams[Canon(dto.streamId)].streamType, dto.recipientId), Channel(freshId))
                      else old(groups))
      // Who is granted, and what.
      ensures r.Done? <==>
        && (dto.kind == Range || dto.kind == All ==> CreateHistorical in scopes)
        && (dto.kind == All || dto.kind == Latest ==> CreateLive in scopes)
        && (dto.kind == All || dto.kind == Latest ==> forall id <- old(grants) ::
              var g := old(grants)[id];
              g.kind != Latest || g.streamId != Canon(dto.streamId) || g.ownerId != uuid || g.recipientId != Canon(dto.recipientId))
        && Canon(dto.streamId) in streams && streams[Canon(dto.streamId)].ownerId == uuid
        && streams[Canon(dto.streamId)].streamType in supported
        && dto.kind in supported[streams[Canon(dto.streamId)].streamType]
        && fault != OnJoining && (fault == OnNotifying ==> dto.kind != Latest)
      ensures r.Done? ==>
        && r.grant.id == freshId && r.grant.streamId == dto.streamId && r.grant.ownerId == uuid
        && r.grant.recipientId == dto.recipientId && r.grant.kind == dto.kind
        && r.grant.fromDate == dto.fromDate && r.grant.toDate == dto.toDate && r.grant.reEncryptionKey == dto.reEncryptionKey
      ensures r.Done? ==>
        && freshId in grants && var row := grants[freshId];
        && row.id == freshId && row.streamId == Canon(dto.streamId) && row.ownerId == uuid
        && row.recipientId == Canon(dto.recipientId) && row.kind == dto.kind
        && row.fromDate == dto.fromDate && row.toDate == dto.toDate && row.reEncryptionKey == dto.reEncryptionKey
      ensures r.Done? ==> forall t: Instant :: dto.fromDate <= t <= dto.toDate ==>
        Coverage.GrantedAt(grants.Values, Canon(dto.recipientId), Canon(dto.streamId), t)
      ensures old(InStep()) ==>
        (InStep() <==> r != Failed(PushNotificationFailed) && (r.Done? ==> Canonical(dto.recipientId)))
    {
      hide Canonical, LatestIsUnique, SameLatest;
      NothingExistsIff(grants, Canon(dto.streamId), uuid, Canon(dto.recipientId));
      var isHistorical := dto.kind == All || dto.kind == Range;
      if isHistorical && CreateHistorical !in scopes {
        return Failed(InvalidTokenScope);
      }
      if dto.kind == All || dto.kind == Latest {
        if CreateLive !in scopes {
          return Failed(InvalidTokenScope);
        }
        if Existing(grants, Canon(dto.streamId), uuid, Canon(dto.recipientId)) != {} {
          return Failed(SingletonGrantExists);
        }
      }
      if Canon(dto.streamId) !in streams {
        return Failed(BadRequest);
      }
      var stream := streams[Canon(dto.streamId)];
      if uuid != stream.ownerId || stream.streamType !in supported || dto.kind !in supported[stream.streamType] {
        return Failed(BadRequest);
      }
      if fault == OnJoining {
        return Failed(ChannelGroupAdditionFailed);
      }
      var grant := Grant(freshId, dto.streamId, stream.ownerId, dto.recipientId, dto.kind, dto.fromDate, dto.toDate, dto.reEncryptionKey);
      if old(InStep()) { AddingMirrorsIff(streams, grants, groups, grant); }
      InsertKeepsLatestUniqueIff(grants, AsRow(grant));
      groups := AddChannel(groups, GroupName(stream.streamType, dto.recipientId), Channel(freshId));
      if dto.kind == Latest && fault == OnNotifying {
        assert Channel(freshId) in InGroup(groups, GroupName(stream.streamType, dto.recipientId));
        assert !Mirrors(streams, grants, groups, stream.streamType, dto.recipientId);
        return Failed(PushNotificationFailed);
      }
      grants := grants[freshId := AsRow(grant)];
      assert AsRow(grant) in grants.Values by { assert grants[freshId] == AsRow(grant); }
      forall t: Instant | dto.fromDate <= t <= dto.toDate
        ensures Coverage.GrantedAt(grants.Values, Canon(dto.recipientId), Canon(dto.streamId), t)
      {
        assert AsRow(grant).Contains(t);
      }
      r := Done(grant);
    }

    /** Gives a range grant another window; every other field, and every other grant, stays. */
    method ModifyRange(sentId: Id, ownerId: Id, fromDate: Instant, toDate: Instant) returns (r: Result)
      requires Valid()
      modifies this`grants
      ensures Valid() && (old(InStep()) ==> InStep())
      ensures var id := Canon(sentId);
        var mine := id in old(grants) && old(grants)[id].ownerId == ownerId;
        if !mine then r == Failed(GrantNotFound) && grants == old(grants)
        else if old(grants)[id].kind != Range then r == Failed(OperationNotAllowed) && grants == old(grants)
        else && r == Done(Grant(id, old(grants)[id].streamId, ownerId, old(grants)[id].recipientId, Range,
                                fromDate, toDate, old(grants)[id].reEncryptionKey))
             && grants == old(grants)[id := r.grant]
    {
      var id := Canon(sentId);
      hide Canonical, Canon;
      if id !in grants || grants[id].ownerId != ownerId {
        return Failed(GrantNotFound);
      }
      var grant := grants[id];
      if grant.kind != Range {
        return Failed(OperationNotAllowed);
      }
      grant := grant.(fromDate := fromDate, toDate := toDate);
      if old(InStep()) { ModifyingMirrors(streams, grants, groups, grant); }
      grants := grants[id := grant];
      r := Done(grant);
    }

    /** Deletes a grant. The channel leaves the group first; `leaves` is false when that fails.
        `streamLoaded` says whether the loaded row carries its stream id, and `first` is the stream that
        the database lists first. */
    method Delete(sentId: Id, ownerId: Id, streamLoaded: bool, first: Id, leaves: bool) returns (r: Result)
      requires Valid() && (first in streams || streams == map[])
      modifies this`grants, this`groups
      ensures Valid()
      ensures var id := Canon(sentId);
        var mine := id in old(grants) && old(grants)[id].ownerId == ownerId;
        && (mine ==> old(grants)[id].streamId in streams)
        && r == (if !mine then Failed(GrantNotFound) else if !leaves then Failed(ChannelGroupRemovalFailed) else Done(old(grants)[id]))
        && grants == (if r.Done? then old(grants) - {id} else old(grants))
        && groups == (if r.Done? then AfterRemoval(old(groups), old(grants)[id], LookedUp(streams, old(grants)[id], streamLoaded, first))
                      else old(groups))
      ensures old(InStep()) ==>
        (InStep() <==> (r.Done? ==>
           LookedUp(streams, r.grant, streamLoaded, first).streamType == streams[r.grant.streamId].streamType))
    {
      var id := Canon(sentId);
      hide Canonical, Canon;
      if id !in grants || grants[id].ownerId != ownerId {
        return Failed(GrantNotFound);
      }
      var grant := grants[id];
      assert WellIssued(streams, supported, grant);
      var found := LookedUp(streams, grant, streamLoaded, first);
      if old(InStep()) { RemovingMirrorsIff(streams, grants, groups, grant, found); }
      if !leaves {
        return Failed(ChannelGroupRemovalFailed);
      }
      groups := RemoveChannel(groups, GroupName(found.streamType, grant.recipientId), Channel(id));
      grants := grants - {id};
      r := Done(grant);
    }
  }
}
