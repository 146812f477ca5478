/**
 * The matchmaking and relay server of server/ChessServer.js: a waiting list of
 * match requests paired by equal clock interval, a registry of matches looked
 * up by uuid, and the relay of move and resign messages to the opponent.
 *
 * The server's two global lists and the messages it emits form one State value.
 * A socket is named by an id; whether it is still connected is the set
 * `connected` passed to each dispatch. The fresh match uuid and the index that
 * Math.random picks inside shuffle are parameters.
 */
module Server {
  import opened Wrappers

  /** Message types: a find-match request, the match-found answer, a move, a resignation. */
  const FindMatchType := 100
  const MatchFoundType := 101
  const MoveType := 102
  const ResignType := 103

  type SocketId = nat

  datatype Interval = Interval(minutes: int, seconds: int)

  datatype Player = Player(uuid: string, name: string)

  /**
   * The data of a client message. A find-match request uses `player` and
   * `interval`; a move or resignation uses `matchUuid` and `playerUuid`; the
   * whole record is what gets relayed.
   */
  datatype Data = Data(player: Player, interval: Interval, matchUuid: string, playerUuid: string, body: string)

  /** A waiting match request: its data and the socket it came from. */
  datatype Request = Request(data: Data, socket: SocketId)

  /** The match description sent to both players with type 101. */
  datatype MatchInfo = MatchInfo(uuid: string, white: Data, black: Data, interval: Interval)

  /** A registered match: its description and the two requests, white's first. */
  datatype Match = Match(info: MatchInfo, whiteRequest: Request, blackRequest: Request)

  datatype Payload = Found(info: MatchInfo) | Relayed(data: Data)

  /** One socket.emit('message', ...) call. */
  datatype Emit = Emit(to: SocketId, kind: int, payload: Payload)

  /** MATCH_REQUESTS, MATCHES, and every message emitted so far, oldest first. */
  datatype State = State(requests: seq<Request>, matches: seq<Match>, sent: seq<Emit>)

  datatype Message = Message(kind: int, data: Data)

  // ---------------------------------------------------------------- order

  /** a is a subsequence of b: its elements occur in b in the same order. */
  predicate Embeds<T(==)>(a: seq<T>, b: seq<T>)
    decreases |b|
  {
    if a == [] then true
    else if b == [] then false
    else (a[0] == b[0] && Embeds(a[1..], b[1..])) || Embeds(a, b[1..])
  }

  lemma {:induction false} EmbedsRefl<T>(a: seq<T>)
    ensures Embeds(a, a)
  {
    if a != [] {
      EmbedsRefl(a[1..]);
    }
  }

  lemma {:induction false} EmbedsSnoc<T>(a: seq<T>, b: seq<T>, x: T)
    requires Embeds(a, b)
    ensures Embeds(a, b + [x])
    decreases |b|
  {
    if a != [] {
      assert (b + [x])[0] == b[0] && (b + [x])[1..] == b[1..] + [x];
      if a[0] == b[0] && Embeds(a[1..], b[1..]) {
        EmbedsSnoc(a[1..], b[1..], x);
      } else {
        EmbedsSnoc(a, b[1..], x);
      }
    }
  }

  /** Removing one element keeps the others in order. */
  lemma {:induction false} EmbedsDrop<T>(a: seq<T>, i: nat)
    requires i < |a|
    ensures Embeds(a[..i] + a[i + 1..], a)
  {
    if i == 0 {
      assert a[..0] + a[1..] == a[1..];
      EmbedsRefl(a[1..]);
    } else {
      var d := a[..i] + a[i + 1..];
      EmbedsDrop(a[1..], i - 1);
      assert d[0] == a[0];
      assert d[1..] == a[1..][..i - 1] + a[1..][i..];
    }
  }

  // ---------------------------------------------------------------- waiting list

  /** No two waiting requests ask for the same interval. */
  predicate DistinctIntervals(reqs: seq<Request>)
  {
    forall i, j :: 0 <= i < j < |reqs| ==> reqs[i].data.interval != reqs[j].data.interval
  }

  /** RemoveDisconnected: the requests whose socket is still connected. */
  function RemoveDisconnected(reqs: seq<Request>, connected: set<SocketId>): (r: seq<Request>)
    ensures forall q :: q in r <==> q in reqs && q.socket in connected
    ensures |r| <= |reqs|
  {
    if reqs == [] then []
    else
      var rest := RemoveDisconnected(reqs[1..], connected);
      assert forall q :: q in reqs <==> q == reqs[0] || q in reqs[1..];
      if reqs[0].socket in connected then [reqs[0]] + rest else rest
  }

  /** The surviving requests keep their order. */
  lemma {:induction false} RemoveDisconnectedKeepsOrder(reqs: seq<Request>, connected: set<SocketId>)
    ensures Embeds(RemoveDisconnected(reqs, connected), reqs)
  {
    if reqs != [] {
      RemoveDisconnectedKeepsOrder(reqs[1..], connected);
    }
  }

  /** Filtering a concatenation filters each part. */
  lemma {:induction false} RemoveDisconnectedConcat(a: seq<Request>, b: seq<Request>, connected: set<SocketId>)
    ensures RemoveDisconnected(a + b, connected) == RemoveDisconnected(a, connected) + RemoveDisconnected(b, connected)
  {
    if a != [] {
      assert (a + b)[0] == a[0] && (a + b)[1..] == a[1..] + b;
      RemoveDisconnectedConcat(a[1..], b, connected);
    } else {
      assert a + b == b;
    }
  }

  /** Pruning twice with the same connections prunes nothing more. */
  lemma {:induction false} RemoveDisconnectedIdempotent(reqs: seq<Request>, connected: set<SocketId>)
    ensures RemoveDisconnected(RemoveDisconnected(reqs, connected), connected) == RemoveDisconnected(reqs, connected)
  {
    if reqs != [] {
      RemoveDisconnectedIdempotent(reqs[1..], connected);
    }
  }

  lemma {:induction false} RemoveDisconnectedDistinct(reqs: seq<Request>, connected: set<SocketId>)
    requires DistinctIntervals(reqs)
    ensures DistinctIntervals(RemoveDisconnected(reqs, connected))
  {
    if reqs != [] {
      var tail := reqs[1..];
      assert DistinctIntervals(tail) by {
        forall i, j | 0 <= i < j < |tail| ensures tail[i].data.interval != tail[j].data.interval {
          assert tail[i] == reqs[i + 1] && tail[j] == reqs[j + 1];
        }
      }
      RemoveDisconnectedDistinct(tail, connected);
      var rest := RemoveDisconnected(tail, connected);
      if reqs[0].socket in connected {
        var r := [reqs[0]] + rest;
        forall i, j | 0 <= i < j < |r| ensures r[i].data.interval != r[j].data.interval {
          if i == 0 {
            assert r[j] == rest[j - 1] && r[j] in tail;
            var k :| 0 <= k < |tail| && tail[k] == r[j];
            assert tail[k] == reqs[k + 1];
          } else {
            assert r[i] == rest[i - 1] && r[j] == rest[j - 1];
          }
        }
      }
    }
  }

  /** The index of the first waiting request with the given interval. */
  function FirstSameInterval(reqs: seq<Request>, iv: Interval): (r: Option<nat>)
    ensures r.Some? ==> r.value < |reqs| && reqs[r.value].data.interval == iv
    ensures r.Some? ==> forall k :: 0 <= k < r.value ==> reqs[k].data.interval != iv
    ensures r.None? <==> forall k :: 0 <= k < |reqs| ==> reqs[k].data.interval != iv
  {
    if reqs == [] then None
    else if reqs[0].data.interval == iv then Some(0)
    else
      var rest := FirstSameInterval(reqs[1..], iv);
      assert forall k :: 1 <= k < |reqs| ==> reqs[k] == reqs[1..][k - 1];
      if rest.None? then None else Some(rest.value + 1)
  }

  // ---------------------------------------------------------------- shuffle

  function Swap<T>(a: seq<T>, i: nat, j: nat): (r: seq<T>)
    requires i < |a| && j < |a|
    ensures |r| == |a|
    ensures r[i] == a[j] && r[j] == a[i]
    ensures forall k :: 0 <= k < |a| && k != i && k != j ==> r[k] == a[k]
  {
    a[i := a[j]][j := a[i]]
  }

  /** A swap keeps the same elements. */
  lemma SwapPermutes<T>(a: seq<T>, i: nat, j: nat)
    requires i < |a| && j < |a|
    ensures multiset(Swap(a, i, j)) == multiset(a)
  {
  }

  /**
   * The loop of shuffle from currentIndex = c down to 0: each pass swaps the
   * element at c - 1 with the one at the index chosen for that pass, picks[c - 1],
   * which Math.random draws from [0, c).
   */
  function ShuffleFrom<T>(a: seq<T>, c: nat, picks: seq<nat>): (r: seq<T>)
    requires c <= |a| && |picks| == |a|
    requires forall k :: 0 <= k < |picks| ==> picks[k] <= k
    ensures |r| == |a|
    decreases c
  {
    if c == 0 then a
    else ShuffleFrom(Swap(a, c - 1, picks[c - 1]), c - 1, picks)
  }

  /** Every pass is a swap, so the loop keeps the same elements. */
  lemma {:induction false} ShuffleFromPermutes<T>(a: seq<T>, c: nat, picks: seq<nat>)
    requires c <= |a| && |picks| == |a|
    requires forall k :: 0 <= k < |picks| ==> picks[k] <= k
    ensures multiset(ShuffleFrom(a, c, picks)) == multiset(a)
    decreases c
  {
    if c > 0 {
      SwapPermutes(a, c - 1, picks[c - 1]);
      ShuffleFromPermutes(Swap(a, c - 1, picks[c - 1]), c - 1, picks);
    }
  }

  /** shuffle: a Fisher-Yates pass; picks[k] is the index drawn when currentIndex is k + 1. */
  function Shuffle<T>(a: seq<T>, picks: seq<nat>): (r: seq<T>)
    requires |picks| == |a|
    requires forall k :: 0 <= k < |picks| ==> picks[k] <= k
    ensures |r| == |a| && multiset(r) == multiset(a)
  {
    ShuffleFromPermutes(a, |a|, picks);
    ShuffleFrom(a, |a|, picks)
  }

  /** The last pass of the loop swaps index 0 with itself. */
  lemma ShuffleFromOne<T>(a: seq<T>, picks: seq<nat>)
    requires 1 <= |a| && |picks| == |a|
    requires forall k :: 0 <= k < |picks| ==> picks[k] <= k
    ensures ShuffleFrom(a, 1, picks) == a
  {
    assert picks[0] == 0;
    assert Swap(a, 0, 0) == a;
  }

  /** The first pass on two elements swaps them unless the draw is the last index. */
  lemma SwapPair<T>(a: seq<T>, pick: nat)
    requires |a| == 2 && pick <= 1
    ensures Swap(a, 1, pick) == if pick == 1 then a else [a[1], a[0]]
  {
    var r := Swap(a, 1, pick);
    assert r[0] == (if pick == 1 then a[0] else a[1]);
    assert r[1] == (if pick == 1 then a[1] else a[0]);
  }

  /** On two elements the only random draw that matters decides whether they swap. */
  lemma ShuffleTwo<T>(a: seq<T>, picks: seq<nat>)
    requires |a| == 2 && |picks| == 2 && picks[0] == 0 && picks[1] <= 1
    ensures Shuffle(a, picks) == if picks[1] == 1 then a else [a[1], a[0]]
  {
    var s1 := Swap(a, 1, picks[1]);
    SwapPair(a, picks[1]);
    assert ShuffleFrom(a, 2, picks) == ShuffleFrom(s1, 1, picks);
    ShuffleFromOne(s1, picks);
  }

  // ---------------------------------------------------------------- matches

  /**
   * DoMatch: the two requests are shuffled; the first becomes white, the match
   * takes white's interval, it is registered, and both requesters are told,
   * request1 first.
   */
  function DoMatch(s: State, request1: Request, request2: Request, uuid: string, pick: nat): (r: State)
    requires pick <= 1
    ensures r.requests == s.requests
    ensures |r.matches| == |s.matches| + 1 && r.matches[..|s.matches|] == s.matches
    ensures var m := r.matches[|s.matches|];
      && multiset{m.whiteRequest, m.blackRequest} == multiset{request1, request2}
      && m.info == MatchInfo(uuid, m.whiteRequest.data, m.blackRequest.data, m.whiteRequest.data.interval)
      && r.sent == s.sent + [Emit(request1.socket, MatchFoundType, Found(m.info)), Emit(request2.socket, MatchFoundType, Found(m.info))]
  {
    var players := Shuffle([request1, request2], [0, pick]);
    ShuffleTwo([request1, request2], [0, pick]);
    var info := MatchInfo(uuid, players[0].data, players[1].data, players[0].data.interval);
    var m := Match(info, players[0], players[1]);
    State(s.requests, s.matches + [m],
          s.sent + [Emit(request1.socket, MatchFoundType, Found(info)), Emit(request2.socket, MatchFoundType, Found(info))])
  }

  /**
   * InsertMatchRequest: a request is paired with the first waiting request of
   * the same interval, which leaves the list; otherwise it waits at the end.
   */
  function InsertMatchRequest(s: State, request: Request, uuid: string, pick: nat): (r: State)
    requires pick <= 1
    ensures FirstSameInterval(s.requests, request.data.interval).None? ==>
      r == s.(requests := s.requests + [request])
    ensures FirstSameInterval(s.requests, request.data.interval).Some? ==>
      var i := FirstSameInterval(s.requests, request.data.interval).value;
      && r.requests == s.requests[..i] + s.requests[i + 1..]
      && r == DoMatch(s, request, s.requests[i], uuid, pick).(requests := r.requests)
  {
    match FirstSameInterval(s.requests, request.data.interval)
    case None => s.(requests := s.requests + [request])
    case Some(i) =>
      var matched := DoMatch(s, request, s.requests[i], uuid, pick);
      matched.(requests := s.requests[..i] + s.requests[i + 1..])
  }

  /** A request either waits or leaves with exactly one partner: none is lost or duplicated. */
  lemma InsertMatchRequestCounts(s: State, request: Request, uuid: string, pick: nat)
    requires pick <= 1
    ensures var r := InsertMatchRequest(s, request, uuid, pick);
      |r.requests| + 2 * (|r.matches| - |s.matches|) == |s.requests| + 1
      && |r.matches| - |s.matches| <= 1
  {
  }

  /** The waiting list after an insertion is the old one plus the new request, in order, less what was paired. */
  lemma InsertMatchRequestKeepsOrder(s: State, request: Request, uuid: string, pick: nat)
    requires pick <= 1
    ensures Embeds(InsertMatchRequest(s, request, uuid, pick).requests, s.requests + [request])
  {
    var r := InsertMatchRequest(s, request, uuid, pick);
    match FirstSameInterval(s.requests, request.data.interval)
    case None =>
      EmbedsRefl(s.requests + [request]);
    case Some(i) =>
      EmbedsDrop(s.requests, i);
      EmbedsSnoc(r.requests, s.requests, request);
  }

  lemma InsertMatchRequestDistinct(s: State, request: Request, uuid: string, pick: nat)
    requires pick <= 1
    requires DistinctIntervals(s.requests)
    ensures DistinctIntervals(InsertMatchRequest(s, request, uuid, pick).requests)
  {
    match FirstSameInterval(s.requests, request.data.interval)
    case None =>
      var r := s.requests + [request];
      assert forall k :: 0 <= k < |s.requests| ==> r[k] == s.requests[k];
    case Some(i) =>
      RemoveAtDistinct(s.requests, i);
  }

  /** Dropping one waiting request keeps the intervals distinct. */
  lemma RemoveAtDistinct(reqs: seq<Request>, i: nat)
    requires i < |reqs| && DistinctIntervals(reqs)
    ensures DistinctIntervals(reqs[..i] + reqs[i + 1..])
  {
    var r := reqs[..i] + reqs[i + 1..];
    assert forall k :: 0 <= k < |r| ==> r[k] == reqs[if k < i then k else k + 1];
  }

  /** The position of the first registered match with the given uuid. */
  function FirstMatch(matches: seq<Match>, uuid: string): (r: Option<nat>)
    ensures r.Some? ==> r.value < |matches| && matches[r.value].info.uuid == uuid
    ensures r.Some? ==> forall k :: 0 <= k < r.value ==> matches[k].info.uuid != uuid
    ensures r.None? <==> forall k :: 0 <= k < |matches| ==> matches[k].info.uuid != uuid
  {
    if matches == [] then None
    else if matches[0].info.uuid == uuid then Some(0)
    else
      var rest := FirstMatch(matches[1..], uuid);
      assert forall k :: 1 <= k < |matches| ==> matches[k] == matches[1..][k - 1];
      if rest.None? then None else Some(rest.value + 1)
  }

  /** FindMatch: the first registered match with the given uuid, or none. */
  function FindMatch(matches: seq<Match>, uuid: string): (r: Option<Match>)
    ensures r.None? <==> forall k :: 0 <= k < |matches| ==> matches[k].info.uuid != uuid
    ensures r.Some? ==> exists i :: (0 <= i < |matches| && matches[i] == r.value && r.value.info.uuid == uuid
      && forall k :: 0 <= k < i ==> matches[k].info.uuid != uuid)
  {
    match FirstMatch(matches, uuid)
    case None => None
    case Some(i) => Some(matches[i])
  }

  /**
   * InsertPlayerMove and ManageResign: the message goes, with the given type,
   * to the sender's opponent in the named match: black when the sender is
   * white's player, white otherwise. An unknown match emits nothing.
   */
  function Relay(s: State, kind: int, data: Data): (r: State)
    ensures r.requests == s.requests && r.matches == s.matches
    ensures FindMatch(s.matches, data.matchUuid).None? ==> r.sent == s.sent
    ensures FindMatch(s.matches, data.matchUuid).Some? ==>
      var m := FindMatch(s.matches, data.matchUuid).value;
      && |r.sent| == |s.sent| + 1 && r.sent[..|s.sent|] == s.sent
      && r.sent[|s.sent|].kind == kind && r.sent[|s.sent|].payload == Relayed(data)
      && (r.sent[|s.sent|].to == m.blackRequest.socket <== m.info.white.player.uuid == data.playerUuid)
      && (r.sent[|s.sent|].to == m.whiteRequest.socket <== m.info.white.player.uuid != data.playerUuid)
  {
    match FindMatch(s.matches, data.matchUuid)
    case None => s
    case Some(m) =>
      var enemy := if m.info.white.player.uuid == data.playerUuid then m.blackRequest else m.whiteRequest;
      s.(sent := s.sent + [Emit(enemy.socket, kind, Relayed(data))])
  }

  // ---------------------------------------------------------------- dispatch

  /**
   * ParseClientMessage: prune disconnected requests, then act on the type.
   * `uuid` and `pick` stand for uuidv4() and the shuffle's random draw.
   */
  function ParseClientMessage(s: State, socket: SocketId, message: Message, connected: set<SocketId>, uuid: string, pick: nat): (r: State)
    requires pick <= 1
    ensures message.kind != FindMatchType ==> r.matches == s.matches
    ensures message.kind != FindMatchType && message.kind != MoveType && message.kind != ResignType ==>
      r.sent == s.sent && r.requests == RemoveDisconnected(s.requests, connected)
    ensures |r.sent| >= |s.sent|
    ensures |r.matches| >= |s.matches| && r.matches[..|s.matches|] == s.matches
    ensures r.sent[..|s.sent|] == s.sent
  {
    var pruned := s.(requests := RemoveDisconnected(s.requests, connected));
    if message.kind == FindMatchType then InsertMatchRequest(pruned, Request(message.data, socket), uuid, pick)
    else if message.kind == MoveType then Relay(pruned, MoveType, message.data)
    else if message.kind == ResignType then Relay(pruned, ResignType, message.data)
    else pruned
  }

  /** Starting from an empty list, the waiting list never holds two requests for the same interval. */
  lemma ParseClientMessageDistinct(s: State, socket: SocketId, message: Message, connected: set<SocketId>, uuid: string, pick: nat)
    requires pick <= 1
    requires DistinctIntervals(s.requests)
    ensures DistinctIntervals(ParseClientMessage(s, socket, message, connected, uuid, pick).requests)
  {
    RemoveDisconnectedDistinct(s.requests, connected);
    var pruned := s.(requests := RemoveDisconnected(s.requests, connected));
    if message.kind == FindMatchType {
      InsertMatchRequestDistinct(pruned, Request(message.data, socket), uuid, pick);
    }
  }

  /** The waiting requests that survive a dispatch keep their relative order. */
  lemma ParseClientMessageKeepsOrder(s: State, socket: SocketId, message: Message, connected: set<SocketId>, uuid: string, pick: nat)
    requires pick <= 1
    ensures message.kind != FindMatchType ==>
      Embeds(ParseClientMessage(s, socket, message, connected, uuid, pick).requests, s.requests)
    ensures message.kind == FindMatchType ==>
      Embeds(ParseClientMessage(s, socket, message, connected, uuid, pick).requests,
             RemoveDisconnected(s.requests, connected) + [Request(message.data, socket)])
  {
    RemoveDisconnectedKeepsOrder(s.requests, connected);
    var pruned := s.(requests := RemoveDisconnected(s.requests, connected));
    if message.kind == FindMatchType {
      InsertMatchRequestKeepsOrder(pruned, Request(message.data, socket), uuid, pick);
    }
  }
}
