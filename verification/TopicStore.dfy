/** The in-memory topic store of the gossipsub protocol: topics whose text is known and topics of which
    only the hash is known live in two separate tables, with the own subscriptions beside them. */
module TopicStore {
  import opened Basics

  type TopicHash = string

  type PeerId = nat

  datatype Topic = Topic(text: Option<string>, participants: set<PeerId>)

  /** What the two tables stand for: one table of topics. */
  datatype Store = Store(topics: map<TopicHash, Topic>, subscribed: set<TopicHash>)

  datatype Op =
    | InsertTopic(text: string, hash: TopicHash)
    | InsertHash(hash: TopicHash)
    | Join(peer: PeerId, hash: TopicHash)
    | Leave(peer: PeerId, hash: TopicHash)
    | Subscribe(hash: TopicHash, wanted: Option<string>)
    | Unsubscribe(hash: TopicHash)

  function TopicAt(s: Store, hash: TopicHash): Topic {
    if hash in s.topics then s.topics[hash] else Topic(None, {})
  }

  /** The topic as it is, known from now on. */
  function Known(s: Store, hash: TopicHash): Store { s.(topics := s.topics[hash := TopicAt(s, hash)]) }

  function Named(s: Store, hash: TopicHash, text: string): Store {
    var t := TopicAt(s, hash);
    s.(topics := s.topics[hash := if t.text.Some? then t else t.(text := Some(text))])
  }

  function Apply(s: Store, op: Op): Store {
    match op
    case InsertTopic(text, hash) => Named(s, hash, text)
    case InsertHash(hash) => Known(s, hash)
    case Join(peer, hash) =>
      var t := TopicAt(s, hash);
      s.(topics := s.topics[hash := t.(participants := t.participants + {peer})])
    case Leave(peer, hash) =>
      var t := TopicAt(s, hash);
      if hash in s.topics then s.(topics := s.topics[hash := t.(participants := t.participants - {peer})]) else s
    case Subscribe(hash, wanted) =>
      var s' := if wanted.Some? then Named(s, hash, wanted.value) else Known(s, hash);
      s'.(subscribed := s'.subscribed + {hash})
    case Unsubscribe(hash) => s.(subscribed := s.subscribed - {hash})
  }

  const EMPTY := Store(map[], {})

  function Run(s: Store, ops: seq<Op>): Store
    decreases |ops|
  {
    if ops == [] then s else Run(Apply(s, ops[0]), ops[1..])
  }

  // ---------------------------------------------------------------- what the history says

  /** The text an operation brings for a topic. */
  function TextIn(op: Op, hash: TopicHash): Option<string> {
    match op
    case InsertTopic(text, h) => if h == hash then Some(text) else None
    case Subscribe(h, wanted) => if h == hash then wanted else None
    case _ => None
  }

  predicate Mentions(op: Op, hash: TopicHash) { op.hash == hash && !op.Leave? && !op.Unsubscribe? }

  function FirstText(ops: seq<Op>, hash: TopicHash): Option<string> {
    if ops == [] then None
    else if TextIn(ops[0], hash).Some? then TextIn(ops[0], hash)
    else FirstText(ops[1..], hash)
  }

  predicate Mentioned(ops: seq<Op>, hash: TopicHash) {
    ops != [] && (Mentions(ops[0], hash) || Mentioned(ops[1..], hash))
  }

  /** The last word about a peer's part in a topic, `before` if there is none. */
  predicate TakesPart(ops: seq<Op>, peer: PeerId, hash: TopicHash, before: bool) {
    if ops == [] then before
    else TakesPart(ops[1..], peer, hash,
                   if ops[0] == Join(peer, hash) then true else if ops[0] == Leave(peer, hash) then false else before)
  }

  predicate Wanted(ops: seq<Op>, hash: TopicHash, before: bool) {
    if ops == [] then before
    else Wanted(ops[1..], hash,
                if ops[0].hash != hash then before
                else if ops[0].Subscribe? then true else if ops[0].Unsubscribe? then false else before)
  }

  /** The store says of every topic what its history says: it is known once mentioned, carries the
      first text it was given, and its participants are the peers that joined and did not leave since. */
  lemma {:induction false} StoreTellsHistory(s: Store, ops: seq<Op>, hash: TopicHash, peer: PeerId)
    ensures var t, t' := TopicAt(s, hash), TopicAt(Run(s, ops), hash);
            && (hash in Run(s, ops).topics <==> hash in s.topics || Mentioned(ops, hash))
            && t'.text == (if t.text.Some? then t.text else FirstText(ops, hash))
            && (peer in t'.participants <==> TakesPart(ops, peer, hash, peer in t.participants))
            && (hash in Run(s, ops).subscribed <==> Wanted(ops, hash, hash in s.subscribed))
    decreases |ops|
  {
    if ops != [] {
      StoreTellsHistory(Apply(s, ops[0]), ops[1..], hash, peer);
    }
  }

  /** Making a topic known before a peer joins it makes no difference. */
  lemma JoinKnown(s: Store, peer: PeerId, hash: TopicHash)
    ensures var known := Apply(s, InsertHash(hash));
            && hash in known.topics && TopicAt(known, hash) == TopicAt(s, hash)
            && Apply(known, Join(peer, hash)) == Apply(s, Join(peer, hash))
  {
    assert Apply(Apply(s, InsertHash(hash)), Join(peer, hash)).topics == Apply(s, Join(peer, hash)).topics;
  }

  /** Whatever is subscribed is known. */
  ghost predicate Sound(s: Store) { s.subscribed <= s.topics.Keys }

  lemma {:induction false} AlwaysSound(s: Store, ops: seq<Op>)
    requires Sound(s)
    ensures Sound(Run(s, ops))
    decreases |ops|
  {
    if ops != [] {
      AlwaysSound(Apply(s, ops[0]), ops[1..]);
    }
  }

  // ---------------------------------------------------------------- the two tables

  class MemTopicStore {
    var populated: map<TopicHash, (string, set<PeerId>)>
    var vacant: map<TopicHash, set<PeerId>>
    var subscribed: set<TopicHash>

    function Abs(): Store
      reads this
    {
      Store(map h | h in populated.Keys + vacant.Keys ::
              if h in populated then Topic(Some(populated[h].0), populated[h].1) else Topic(None, vacant[h]),
            subscribed)
    }

    /** The tables never overlap, and whatever is subscribed is in one of them. */
    ghost predicate Valid()
      reads this
    {
      populated.Keys !! vacant.Keys && Sound(Abs())
    }

    constructor ()
      ensures Valid() && Abs() == EMPTY
    {
      populated, vacant, subscribed := map[], map[], {};
    }

    method InsertTopic(text: string, hash: TopicHash) returns (isNew: bool)
      requires Valid()
      modifies this
      ensures Valid() && Abs() == Apply(old(Abs()), Op.InsertTopic(text, hash))
      ensures isNew <==> hash !in old(Abs()).topics
    {
      if hash in vacant {
        var list := vacant[hash];
        vacant := vacant - {hash};
        populated := populated[hash := (text, list)];
        return false;
      }
      if hash !in populated {
        populated := populated[hash := (text, {})];
        return true;
      }
      return false;
    }

    method InsertHash(hash: TopicHash) returns (isNew: bool)
      requires Valid()
      modifies this
      ensures Valid() && Abs() == Apply(old(Abs()), Op.InsertHash(hash))
      ensures isNew <==> hash !in old(Abs()).topics
    {
      if hash in vacant || hash in populated {
        return false;
      }
      vacant := vacant[hash := {}];
      return true;
    }

    method JoinTopic(peer: PeerId, hash: TopicHash) returns (joined: bool)
      requires Valid()
      modifies this
      ensures Valid() && Abs() == Apply(old(Abs()), Join(peer, hash))
      ensures joined <==> peer !in TopicAt(old(Abs()), hash).participants
    {
      hide *;
      var _ := InsertHash(hash);
      JoinKnown(old(Abs()), peer, hash);
      joined := AddParticipant(peer, hash);
    }

    /** The topic is in one of the tables, so the source's last branch is not taken. */
    method AddParticipant(peer: PeerId, hash: TopicHash) returns (joined: bool)
      requires Valid() && hash in Abs().topics
      modifies this
      ensures Valid() && Abs() == Apply(old(Abs()), Join(peer, hash))
      ensures joined <==> peer !in TopicAt(old(Abs()), hash).participants
    {
      if hash in vacant {
        joined := peer !in vacant[hash];
        vacant := vacant[hash := vacant[hash] + {peer}];
      } else if hash in populated {
        joined := peer !in populated[hash].1;
        populated := populated[hash := (populated[hash].0, populated[hash].1 + {peer})];
      } else {
        assert false;
      }
      assert Abs().topics == Apply(old(Abs()), Join(peer, hash)).topics;
    }

    method LeaveTopic(peer: PeerId, hash: TopicHash) returns (left: bool)
      requires Valid()
      modifies this
      ensures Valid() && Abs() == Apply(old(Abs()), Leave(peer, hash))
      ensures left <==> peer in TopicAt(old(Abs()), hash).participants
    {
      left := false;
      if hash in vacant {
        left := peer in vacant[hash];
        vacant := vacant[hash := vacant[hash] - {peer}];
      } else if hash in populated {
        left := peer in populated[hash].1;
        populated := populated[hash := (populated[hash].0, populated[hash].1 - {peer})];
      }
    }

    method SubscribeTopic(hash: TopicHash, wanted: Option<string>) returns (isNew: bool)
      requires Valid()
      modifies this
      ensures Valid() && Abs() == Apply(old(Abs()), Subscribe(hash, wanted))
      ensures isNew <==> hash !in old(subscribed)
    {
      if wanted.Some? {
        var _ := InsertTopic(wanted.value, hash);
      } else {
        var _ := InsertHash(hash);
      }
      isNew := hash !in subscribed;
      subscribed := subscribed + {hash};
    }

    method UnsubscribeTopic(hash: TopicHash) returns (was: bool)
      requires Valid()
      modifies this
      ensures Valid() && Abs() == Apply(old(Abs()), Unsubscribe(hash))
      ensures was <==> hash in old(subscribed)
    {
      was := hash in subscribed;
      subscribed := subscribed - {hash};
    }

    method TryMap(hash: TopicHash) returns (text: Option<string>)
      requires Valid()
      ensures text == TopicAt(Abs(), hash).text
    {
      text := if hash in populated then Some(populated[hash].0) else None;
    }

    method Participants(hash: TopicHash) returns (peers: Option<set<PeerId>>)
      requires Valid()
      ensures peers == if hash in Abs().topics then Some(Abs().topics[hash].participants) else None
    {
      peers := if hash in populated then Some(populated[hash].1)
               else if hash in vacant then Some(vacant[hash]) else None;
    }

    method ReadableTopics() returns (readable: map<TopicHash, string>)
      requires Valid()
      ensures forall h, text :: h in readable && readable[h] == text <==> TopicAt(Abs(), h).text == Some(text)
    {
      readable := map h | h in populated :: populated[h].0;
    }

    method HashTopics() returns (hashes: set<TopicHash>)
      requires Valid()
      ensures forall h :: h in hashes <==> h in Abs().topics && Abs().topics[h].text.None?
    {
      hashes := vacant.Keys;
    }
  }
}
