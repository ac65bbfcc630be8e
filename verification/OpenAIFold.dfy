/** Folding chat-completion chunks into a message and stream events. */
module OpenAIFold {
  import opened AssistantBuilder
  import opened Options

  /** A piece of a tool call: its stream index, and whatever identity and text it carries. */
  datatype ToolPiece = ToolPiece(index: Option<int>, id: string, name: string, arguments: string)

  /** One chunk's choice. */
  datatype Choice = Choice(content: string, reasoningContent: string, reasoning: string, calls: seq<ToolPiece>)

  /** A call in progress: its stream index (or -1), its place in the message, and its argument text so far. */
  datatype FoldBlock = FoldBlock(streamIndex: int, contentIndex: nat, partialArgs: string)

  function LastOf(output: seq<Block>, kind: Kind): (i: Option<nat>)
    ensures i.Some? ==> i.value < |output| && output[i.value].kind == kind
    ensures forall j :: (if i.Some? then i.value else -1) < j < |output| ==> output[j].kind != kind
  {
    if output == [] then None
    else if output[|output| - 1].kind == kind then Some(|output| - 1)
    else LastOf(output[..|output| - 1], kind)
  }

  // ----- How the builder follows -----

  /** Before the closing events the builder may still lack a call's identity and final arguments, and nothing else. */
  predicate Agrees(b: Block, p: Block) {
    b.kind == p.kind && b.text == p.text && b.thinking == p.thinking
    && (!p.kind.ToolKind? ==> b.id == p.id && b.name == p.name && b.arguments == p.arguments)
  }

  ghost predicate AllAgree(b: seq<Block>, p: seq<Block>) {
    |b| == |p| && forall i :: 0 <= i < |p| ==> Agrees(b[i], p[i])
  }

  lemma AgreesUpdate(b: seq<Block>, p: seq<Block>, i: nat, ev: StreamEvent, after: Block)
    requires AllAgree(b, p) && i < |p| && ev.index == i && Agrees(OnBlock(b[i], ev), after)
    ensures AllAgree(FoldOne(b, ev), p[i := after])
    ensures FoldOne(b, ev) == b[i := OnBlock(b[i], ev)]
  {
    hide FoldOne, OnBlock, Agrees;
    FoldOneIs(b, ev);
  }

  lemma AgreesOpen(b: seq<Block>, p: seq<Block>, e: StreamEvent, f: StreamEvent, opening: Block)
    requires AllAgree(b, p) && e.index == f.index == |p| && KindOf(e) == KindOf(f)
    requires Agrees(OnBlock(OnBlock(Empty(KindOf(e)), e), f), opening)
    ensures AllAgree(FoldOne(FoldOne(b, e), f), p + [opening])
  {
    hide FoldOne, OnBlock, Agrees;
    FoldOpening(b, e, f);
  }

  lemma AgreesSnoc(b: seq<Block>, p: seq<Block>, ev: StreamEvent, opening: Block)
    requires AllAgree(b, p) && ev.index == |p| && Agrees(OnBlock(Empty(KindOf(ev)), ev), opening)
    ensures AllAgree(FoldOne(b, ev), p + [opening])
  {
    hide FoldOne, OnBlock, Agrees;
    FoldOneIs(b, ev);
  }

  lemma AgreesSize(b: seq<Block>, p: seq<Block>)
    requires AllAgree(b, p)
    ensures |b| == |p| && forall i :: 0 <= i < |p| ==> Agrees(b[i], p[i])
  {
  }

  // ----- Text and reasoning -----

  predicate AllOf(events: seq<StreamEvent>, kind: Kind) {
    forall e :: e in events ==> KindOf(e) == kind
  }

  /** The one block of a kind holds everything sent for it; without such a block nothing was sent. */
  ghost predicate Holds(output: seq<Block>, kind: Kind, received: string) {
    && (forall i, j :: 0 <= i < |output| && 0 <= j < |output| && output[i].kind == output[j].kind == kind ==> i == j)
    && (LastOf(output, kind).None? ==> received == "")
    && (LastOf(output, kind).Some? ==> BodyOf(output[LastOf(output, kind).value], kind) == received)
  }

  function BodyOf(b: Block, kind: Kind): string {
    if kind.TextKind? then b.text else b.thinking
  }

  /** A change that keeps kinds and bodies of this kind, or appends a block of another kind, keeps `Holds`. */
  lemma HoldsElsewhere(output: seq<Block>, after: seq<Block>, kind: Kind, received: string)
    requires Holds(output, kind, received) && |output| <= |after|
    requires forall i :: 0 <= i < |output| ==>
             after[i].kind == output[i].kind && (output[i].kind == kind ==>
                                                 BodyOf(after[i], kind) == BodyOf(output[i], kind))
    requires forall i :: |output| <= i < |after| ==> after[i].kind != kind
    ensures Holds(after, kind, received)
  {
    hide BodyOf;
    var k := LastOf(output, kind);
    if k.Some? {
    } else {
    }
  }

  lemma HoldsMore(output: seq<Block>, kind: Kind, received: string, delta: string, b: Block)
    requires Holds(output, kind, received) && LastOf(output, kind).Some? && b.kind == kind
    requires BodyOf(b, kind) == BodyOf(output[LastOf(output, kind).value], kind) + delta
    ensures Holds(output[LastOf(output, kind).value := b], kind, received + delta)
  {
    hide BodyOf;
  }

  lemma HoldsFirst(output: seq<Block>, kind: Kind, received: string, b: Block)
    requires Holds(output, kind, received) && LastOf(output, kind).None? && b.kind == kind
    ensures Holds(output + [b], kind, BodyOf(b, kind)) && received == ""
  {
  }

  // ----- Tool calls -----

  /** The calls in progress have their own places, in order; the maps lead to calls that are there. */
  ghost predicate Placed(output: seq<Block>, folds: seq<FoldBlock>, byIndex: map<int, nat>, byId: map<string, nat>) {
    && (forall k :: 0 <= k < |folds| ==>
        folds[k].contentIndex < |output| && output[folds[k].contentIndex].kind.ToolKind?)
    && (forall j, k :: 0 <= j < k < |folds| ==> folds[j].contentIndex < folds[k].contentIndex)
    && (forall s :: s in byIndex ==> byIndex[s] < |folds|)
    && (forall x :: x in byId ==> byId[x] < |folds|)
  }

  function IndexOf(p: ToolPiece): int {
    if p.index.Some? then p.index.value else -1
  }

  /** The argument text of the pieces with one index, one after the other. */
  function JoinedArgs(pieces: seq<ToolPiece>, index: int): string {
    if pieces == [] then ""
    else
      var last := pieces[|pieces| - 1];
      JoinedArgs(pieces[..|pieces| - 1], index) + if IndexOf(last) == index then last.arguments else ""
  }

  /** The call a piece belongs to: by index, else by identifier, else a new one. */
  function Resolve(n: nat, byIndex: map<int, nat>, byId: map<string, nat>, p: ToolPiece): nat {
    if IndexOf(p) >= 0 && IndexOf(p) in byIndex then byIndex[IndexOf(p)]
    else if p.id != "" && p.id in byId then byId[p.id]
    else n
  }

  lemma JoinedArgsSnoc(pieces: seq<ToolPiece>, p: ToolPiece, index: int)
    ensures JoinedArgs(pieces + [p], index) == JoinedArgs(pieces, index) + if IndexOf(p) == index then p.arguments
            else ""
  {
    assert (pieces + [p])[..|pieces|] == pieces;
  }

  // ----- Where the pieces go -----

  /** The text of the pieces that went to `target`, one after the other. */
  function SentTo(pieces: seq<ToolPiece>, targets: seq<int>, target: int): string
    requires |targets| == |pieces|
  {
    if pieces == [] then ""
    else
      var n := |pieces| - 1;
      SentTo(pieces[..n], targets[..n], target) + if targets[n] == target then pieces[n].arguments else ""
  }

  lemma SentToSnoc(pieces: seq<ToolPiece>, targets: seq<int>, p: ToolPiece, t: int, target: int)
    requires |targets| == |pieces|
    ensures SentTo(pieces + [p], targets + [t], target) == SentTo(pieces, targets, target) + if t == target
            then p.arguments else ""
  {
    assert (pieces + [p])[..|pieces|] == pieces && (targets + [t])[..|pieces|] == targets;
  }

  /** `routes` tells which call each piece went to. Each call's text is what went to it, and a call with a stream index
      is the one its index leads to. */
  ghost predicate Delivered(folds: seq<FoldBlock>, byIndex: map<int, nat>, pieces: seq<ToolPiece>, routes: seq<nat>) {
    && |routes| == |pieces|
    && (forall j :: 0 <= j < |routes| ==> routes[j] < |folds|)
    && (forall k :: 0 <= k < |folds| ==> folds[k].partialArgs == SentTo(pieces, routes, k))
    && (forall s :: s in byIndex ==> s >= 0 && byIndex[s] < |folds| && folds[byIndex[s]].streamIndex == s)
    && (forall k :: 0 <= k < |folds| ==> IsIndexed(folds, byIndex, k))
  }

  ghost predicate IsIndexed(folds: seq<FoldBlock>, byIndex: map<int, nat>, k: nat)
    requires k < |folds|
  {
    folds[k].streamIndex >= 0 ==> folds[k].streamIndex in byIndex && byIndex[folds[k].streamIndex] == k
  }

  /** The effect of a piece on the calls and the index map. */
  ghost predicate Taken(folds: seq<FoldBlock>, byIndex: map<int, nat>, k: nat, p: ToolPiece, n: nat,
                        foldsAfter: seq<FoldBlock>, byIndexAfter: map<int, nat>) {
    && k <= |folds| && (IndexOf(p) >= 0 && IndexOf(p) in byIndex ==> k == byIndex[IndexOf(p)])
    && (k == |folds| ==>
          && foldsAfter == folds + [FoldBlock(IndexOf(p), n, p.arguments)]
          && byIndexAfter == if IndexOf(p) >= 0 then byIndex[IndexOf(p) := k] else byIndex)
    && (k < |folds| ==>
          && foldsAfter == folds[k := folds[k].(partialArgs := folds[k].partialArgs + p.arguments)]
          && byIndexAfter == byIndex)
  }

  lemma DeliveredNext(folds: seq<FoldBlock>, byIndex: map<int, nat>, pieces: seq<ToolPiece>, routes: seq<nat>, k: nat,
                      p: ToolPiece, n: nat, foldsAfter: seq<FoldBlock>, byIndexAfter: map<int, nat>)
    requires Delivered(folds, byIndex, pieces, routes) && Taken(folds, byIndex, k, p, n, foldsAfter, byIndexAfter)
    ensures Delivered(foldsAfter, byIndexAfter, pieces + [p], routes + [k])
  {
    hide SentTo;
    forall j | 0 <= j < |foldsAfter|
      ensures foldsAfter[j].partialArgs == SentTo(pieces + [p], routes + [k], j)
              && IsIndexed(foldsAfter, byIndexAfter, j)
    {
      SentToSnoc(pieces, routes, p, k, j);
      if j == |folds| {
        SentToNobody(pieces, routes, j);
      } else {
        assert IsIndexed(folds, byIndex, j);
      }
    }
  }

  lemma {:induction false} SentToNobody(pieces: seq<ToolPiece>, targets: seq<int>, target: int)
    requires |targets| == |pieces| && target !in targets
    ensures SentTo(pieces, targets, target) == ""
  {
    if pieces != [] {
      SentToNobody(pieces[..|pieces| - 1], targets[..|pieces| - 1], target);
    }
  }

  /** The stream index of the call each piece went to. */
  function Labels(folds: seq<FoldBlock>, routes: seq<nat>): seq<int>
    requires forall j :: 0 <= j < |routes| ==> routes[j] < |folds|
  {
    seq(|routes|, j requires 0 <= j < |routes| => folds[routes[j]].streamIndex)
  }

  /** What went to the call of an index is what went to that index. */
  lemma {:induction false} SentToIndex(folds: seq<FoldBlock>, byIndex: map<int, nat>, pieces: seq<ToolPiece>,
                                       routes: seq<nat>, s: int)
    requires |routes| == |pieces| && forall j :: 0 <= j < |routes| ==> routes[j] < |folds|
    requires s in byIndex && s >= 0 && byIndex[s] < |folds| && folds[byIndex[s]].streamIndex == s
    requires forall k :: 0 <= k < |folds| ==> IsIndexed(folds, byIndex, k)
    ensures SentTo(pieces, Labels(folds, routes), s) == SentTo(pieces, routes, byIndex[s])
  {
    if pieces != [] {
      var n := |pieces| - 1;
      SentToIndex(folds, byIndex, pieces[..n], routes[..n], s);
      assert Labels(folds, routes)[..n] == Labels(folds, routes[..n]);
      assert IsIndexed(folds, byIndex, routes[n]);
    }
  }

  /** The piece has no text, or goes to a call with its own stream index (or neither has one). */
  predicate Fits(p: ToolPiece, stream: int) {
    p.arguments == "" || stream == IndexOf(p) || (stream < 0 && IndexOf(p) < 0)
  }

  /** For every index, what went to it is what was sent for it. */
  ghost predicate PerIndex(pieces: seq<ToolPiece>, labels: seq<int>)
    requires |labels| == |pieces|
  {
    forall s: int :: s >= 0 ==> SentTo(pieces, labels, s) == JoinedArgs(pieces, s)
  }

  lemma PerIndexStep(pieces: seq<ToolPiece>, labels: seq<int>, p: ToolPiece, stream: int)
    requires |labels| == |pieces| && PerIndex(pieces, labels)
    ensures PerIndex(pieces + [p], labels + [stream]) <==> Fits(p, stream)
  {
    hide SentTo, JoinedArgs;
    forall s: int | s >= 0
      ensures SentTo(pieces + [p], labels + [stream], s) == JoinedArgs(pieces + [p], s) <==>
              (p.arguments == "" || (stream == s <==> IndexOf(p) == s))
    {
      SentToSnoc(pieces, labels, p, stream, s);
      JoinedArgsSnoc(pieces, p, s);
      assert |JoinedArgs(pieces, s) + p.arguments| == |JoinedArgs(pieces, s)| + |p.arguments|;
    }
    if !Fits(p, stream) {
      var s := if stream >= 0 then stream else IndexOf(p);
      assert SentTo(pieces + [p], labels + [stream], s) != JoinedArgs(pieces + [p], s);
    }
  }

  /** Up to every point of the stream each index has exactly the text sent for it, if and only if no piece with text
      went to a call of another stream index. */
  lemma {:induction false} PerIndexExactly(pieces: seq<ToolPiece>, labels: seq<int>)
    requires |labels| == |pieces|
    ensures (forall i :: 0 <= i <= |pieces| ==> PerIndex(pieces[..i], labels[..i])) <==>
            (forall j :: 0 <= j < |pieces| ==> Fits(pieces[j], labels[j]))
  {
    hide PerIndex;
    assert pieces[..|pieces|] == pieces && labels[..|pieces|] == labels;
    if pieces == [] {
      NothingSent(pieces, labels);
    } else {
      var n := |pieces| - 1;
      PerIndexExactly(pieces[..n], labels[..n]);
      assert forall i :: 0 <= i <= n ==> pieces[..n][..i] == pieces[..i] && labels[..n][..i] == labels[..i];
      assert pieces == pieces[..n] + [pieces[n]] && labels == labels[..n] + [labels[n]];
      if PerIndex(pieces[..n], labels[..n]) {
        PerIndexStep(pieces[..n], labels[..n], pieces[n], labels[n]);
      }
    }
  }

  lemma NothingSent(pieces: seq<ToolPiece>, labels: seq<int>)
    requires pieces == [] && labels == []
    ensures PerIndex(pieces, labels)
  {
  }

  /** The condition is real: an identifier seen again under another index draws that index's text to the first call. */
  lemma SharedIdExample()
    ensures var p, q := ToolPiece(Some(0), "a", "", "x"), ToolPiece(Some(1), "a", "", "y");
            && Resolve(0, map[], map[], p) == 0 && Resolve(1, map[0 := 0], map["a" := 0], q) == 0
            && SentTo([p, q], [0, 0], 0) == "xy" && JoinedArgs([p, q], 0) == "x" && JoinedArgs([p, q], 1) == "y"
            && !Fits(q, 0)
  {
    hide SentTo, JoinedArgs;
    var p, q := ToolPiece(Some(0), "a", "", "x"), ToolPiece(Some(1), "a", "", "y");
    NothingSentYet();
    assert [] + [p] == [p] && [p] + [q] == [p, q] && [] + [0] == [0] && [0] + [0] == [0, 0];
    assert "" + "x" == "x" && "x" + "y" == "xy" && "x" + "" == "x" && "" + "" == "" && "" + "y" == "y";
    SentToSnoc([], [], p, 0, 0);
    SentToSnoc([p], [0], q, 0, 0);
    JoinedArgsSnoc([], p, 0);
    JoinedArgsSnoc([], p, 1);
    JoinedArgsSnoc([p], q, 0);
    JoinedArgsSnoc([p], q, 1);
  }

  lemma NothingSentYet()
    ensures SentTo([], [], 0) == JoinedArgs([], 0) == JoinedArgs([], 1) == ""
  {
  }

  // ----- A condition on the pieces alone -----

  /** Every piece has an index, and pieces with the same identifier have the same one. */
  ghost predicate Consistent(pieces: seq<ToolPiece>) {
    && (forall p :: p in pieces ==> IndexOf(p) >= 0)
    && (forall p, q :: p in pieces && q in pieces && p.id == q.id != "" ==> IndexOf(p) == IndexOf(q))
  }

  lemma ConsistentPrefix(pieces: seq<ToolPiece>, p: ToolPiece)
    requires Consistent(pieces + [p])
    ensures Consistent(pieces) && IndexOf(p) >= 0
    ensures forall q :: q in pieces && q.id == p.id != "" ==> IndexOf(q) == IndexOf(p)
  {
    assert forall q :: q in pieces ==> q in pieces + [p];
    assert p in pieces + [p];
  }

  /** Each piece went to a call of its own index, and each known identifier leads to a call whose index came with it. */
  ghost predicate Routed(folds: seq<FoldBlock>, byId: map<string, nat>, pieces: seq<ToolPiece>, routes: seq<nat>) {
    && |routes| == |pieces|
    && (forall j :: 0 <= j < |routes| ==> routes[j] < |folds| && folds[routes[j]].streamIndex == IndexOf(pieces[j]))
    && (forall x :: x in byId ==> Witnessed(folds, byId[x], x, pieces))
  }

  ghost predicate Witnessed(folds: seq<FoldBlock>, k: nat, id: string, pieces: seq<ToolPiece>) {
    k < |folds| && id != "" && exists p :: p in pieces && p.id == id && IndexOf(p) == folds[k].streamIndex
  }

  lemma KnownIdIsIndexed(folds: seq<FoldBlock>, byIndex: map<int, nat>, byId: map<string, nat>, pieces: seq<ToolPiece>,
                         routes: seq<nat>, p: ToolPiece)
    requires Consistent(pieces + [p]) && Routed(folds, byId, pieces, routes)
             && Delivered(folds, byIndex, pieces, routes)
    requires p.id in byId
    ensures IndexOf(p) in byIndex
  {
    hide SentTo, Consistent;
    ConsistentPrefix(pieces, p);
    assert Witnessed(folds, byId[p.id], p.id, pieces);
    assert IsIndexed(folds, byIndex, byId[p.id]);
  }

  /** Consistent pieces all go to the calls of their indices. */
  lemma RoutedNext(folds: seq<FoldBlock>, byIndex: map<int, nat>, byId: map<string, nat>, pieces: seq<ToolPiece>,
                   routes: seq<nat>, p: ToolPiece, n: nat, foldsAfter: seq<FoldBlock>, byIndexAfter: map<int, nat>,
                   byIdAfter: map<string, nat>)
    requires Consistent(pieces + [p]) && Routed(folds, byId, pieces, routes)
             && Delivered(folds, byIndex, pieces, routes)
    requires var k := Resolve(|folds|, byIndex, byId, p);
             && Taken(folds, byIndex, k, p, n, foldsAfter, byIndexAfter)
             && (byIdAfter == byId || (p.id != "" && byIdAfter == byId[p.id := k]))
    ensures Routed(foldsAfter, byIdAfter, pieces + [p], routes + [Resolve(|folds|, byIndex, byId, p)])
  {
    hide SentTo, Consistent, Delivered, Taken, Resolve, Witnessed;
    var k := Resolve(|folds|, byIndex, byId, p);
    GoesToItsIndex(folds, byIndex, byId, pieces, routes, p);
    TakenKeepsIndices(folds, byIndex, k, p, n, foldsAfter, byIndexAfter);
    forall x | x in byIdAfter
      ensures Witnessed(foldsAfter, byIdAfter[x], x, pieces + [p])
    {
      if x == p.id && byIdAfter[x] == k && byIdAfter != byId {
        NewWitness(foldsAfter, k, pieces, p);
      } else {
        WitnessStays(folds, byId[x], x, pieces, p, foldsAfter);
      }
    }
  }

  lemma GoesToItsIndex(folds: seq<FoldBlock>, byIndex: map<int, nat>, byId: map<string, nat>, pieces: seq<ToolPiece>,
                       routes: seq<nat>, p: ToolPiece)
    requires Consistent(pieces + [p]) && Routed(folds, byId, pieces, routes)
             && Delivered(folds, byIndex, pieces, routes)
    ensures var k := Resolve(|folds|, byIndex, byId, p);
            k <= |folds| && (k < |folds| ==> folds[k].streamIndex == IndexOf(p))
  {
    hide SentTo, Consistent, Witnessed;
    ConsistentPrefix(pieces, p);
    if p.id in byId {
      KnownIdIsIndexed(folds, byIndex, byId, pieces, routes, p);
    }
  }

  lemma TakenKeepsIndices(folds: seq<FoldBlock>, byIndex: map<int, nat>, k: nat, p: ToolPiece, n: nat,
                          foldsAfter: seq<FoldBlock>, byIndexAfter: map<int, nat>)
    requires Taken(folds, byIndex, k, p, n, foldsAfter, byIndexAfter)
    requires k < |folds| ==> folds[k].streamIndex == IndexOf(p)
    ensures |folds| <= |foldsAfter| && k < |foldsAfter| && foldsAfter[k].streamIndex == IndexOf(p)
    ensures forall j :: 0 <= j < |folds| ==> foldsAfter[j].streamIndex == folds[j].streamIndex
  {
  }

  lemma NewWitness(folds: seq<FoldBlock>, k: nat, pieces: seq<ToolPiece>, p: ToolPiece)
    requires k < |folds| && p.id != "" && folds[k].streamIndex == IndexOf(p)
    ensures Witnessed(folds, k, p.id, pieces + [p])
  {
    assert p in pieces + [p];
  }

  lemma WitnessStays(folds: seq<FoldBlock>, k: nat, id: string, pieces: seq<ToolPiece>, p: ToolPiece,
                     foldsAfter: seq<FoldBlock>)
    requires Witnessed(folds, k, id, pieces) && |folds| <= |foldsAfter|
    requires forall j :: 0 <= j < |folds| ==> foldsAfter[j].streamIndex == folds[j].streamIndex
    ensures Witnessed(foldsAfter, k, id, pieces + [p])
  {
    assert forall q :: q in pieces ==> q in pieces + [p];
  }

  // ----- What the pieces make of a call -----

  /** The pieces that went to `target`, in order. */
  function PiecesTo(pieces: seq<ToolPiece>, routes: seq<nat>, target: nat): seq<ToolPiece>
    requires |routes| == |pieces|
  {
    if pieces == [] then []
    else
      var n := |pieces| - 1;
      PiecesTo(pieces[..n], routes[..n], target) + if routes[n] == target then [pieces[n]] else []
  }

  lemma PiecesToSnoc(pieces: seq<ToolPiece>, routes: seq<nat>, p: ToolPiece, t: nat, target: nat)
    requires |routes| == |pieces|
    ensures PiecesTo(pieces + [p], routes + [t], target) ==
            PiecesTo(pieces, routes, target) + if t == target then [p] else []
  {
    assert (pieces + [p])[..|pieces|] == pieces && (routes + [t])[..|pieces|] == routes;
  }

  lemma {:induction false} NoPieces(pieces: seq<ToolPiece>, routes: seq<nat>, target: nat)
    requires |routes| == |pieces| && target !in routes
    ensures PiecesTo(pieces, routes, target) == []
  {
    if pieces != [] {
      assert routes[|pieces| - 1] in routes;
      NoPieces(pieces[..|pieces| - 1], routes[..|pieces| - 1], target);
    }
  }

  function TextOf(ps: seq<ToolPiece>): string {
    if ps == [] then "" else TextOf(ps[..|ps| - 1]) + ps[|ps| - 1].arguments
  }

  function FilledAll(ps: seq<ToolPiece>, streamingJson: string -> string): Block {
    if ps == [] then Empty(ToolKind)
    else Filled(FilledAll(ps[..|ps| - 1], streamingJson), ps[|ps| - 1], TextOf(ps), streamingJson)
  }

  /** The value that counts: the first that is not empty. */
  predicate IsFirst(values: seq<string>, v: string) {
    if v == "" then forall i :: 0 <= i < |values| ==> values[i] == ""
    else exists i :: 0 <= i < |values| && values[i] == v && forall j :: 0 <= j < i ==> values[j] == ""
  }

  lemma FirstNext(values: seq<string>, v: string, value: string)
    requires IsFirst(values, v)
    ensures IsFirst(values + [value], if v == "" then value else v)
  {
    var after := values + [value];
    assert forall i :: 0 <= i < |values| ==> after[i] == values[i];
    assert after[|values|] == value;
  }

  function Ids(ps: seq<ToolPiece>): seq<string> {
    seq(|ps|, i requires 0 <= i < |ps| => ps[i].id)
  }

  function Names(ps: seq<ToolPiece>): seq<string> {
    seq(|ps|, i requires 0 <= i < |ps| => ps[i].name)
  }

  /** A call takes the first identifier and the first name that come, and its arguments are what all its text parses
      to. */
  lemma {:induction false} FilledMeans(ps: seq<ToolPiece>, streamingJson: string -> string)
    ensures var b := FilledAll(ps, streamingJson);
            && b.kind.ToolKind? && IsFirst(Ids(ps), b.id) && IsFirst(Names(ps), b.name)
            && b.arguments == if TextOf(ps) == "" then "" else streamingJson(TextOf(ps))
  {
    if ps == [] {
      assert FilledAll(ps, streamingJson) == Empty(ToolKind);
    } else {
      hide IsFirst, FilledAll, TextOf;
      var front, last := ps[..|ps| - 1], ps[|ps| - 1];
      assert ps == front + [last];
      FilledMeans(front, streamingJson);
      FilledNext(front, last, streamingJson);
      assert last.arguments == "" ==> TextOf(front) + last.arguments == TextOf(front);
      assert last.arguments != "" ==> |TextOf(ps)| > 0;
      var before := FilledAll(front, streamingJson);
      FirstNext(Ids(front), before.id, last.id);
      FirstNext(Names(front), before.name, last.name);
      assert Ids(front) + [last.id] == Ids(ps) && Names(front) + [last.name] == Names(ps);
    }
  }

  /** Each call holds what its own pieces make of it. */
  ghost predicate Filling(output: seq<Block>, folds: seq<FoldBlock>, pieces: seq<ToolPiece>, routes: seq<nat>,
                          streamingJson: string -> string) {
    && |routes| == |pieces|
    && forall k :: 0 <= k < |folds| ==> FillingAt(output, folds[k], PiecesTo(pieces, routes, k), streamingJson)
  }

  ghost predicate FillingAt(output: seq<Block>, f: FoldBlock, ps: seq<ToolPiece>, streamingJson: string -> string) {
    && f.contentIndex < |output| && output[f.contentIndex] == FilledAll(ps, streamingJson)
    && f.partialArgs == TextOf(ps)
  }

  lemma FillingElsewhere(output: seq<Block>, after: seq<Block>, folds: seq<FoldBlock>, byIndex: map<int, nat>,
                         byId: map<string, nat>, pieces: seq<ToolPiece>, routes: seq<nat>,
                         streamingJson: string -> string)
    requires Filling(output, folds, pieces, routes, streamingJson) && Placed(output, folds, byIndex, byId)
    requires |output| <= |after|
             && forall i :: 0 <= i < |output| && output[i].kind.ToolKind? ==> after[i] == output[i]
    ensures Filling(after, folds, pieces, routes, streamingJson)
  {
    hide FilledAll, TextOf, PiecesTo;
    forall k | 0 <= k < |folds|
      ensures FillingAt(after, folds[k], PiecesTo(pieces, routes, k), streamingJson)
    {
      assert FillingAt(output, folds[k], PiecesTo(pieces, routes, k), streamingJson);
    }
  }

  lemma FilledFirst(p: ToolPiece, streamingJson: string -> string)
    ensures FilledAll([p], streamingJson) ==
            Filled(Empty(ToolKind).(id := p.id, name := p.name), p, p.arguments, streamingJson)
    ensures TextOf([p]) == p.arguments
  {
    assert [p][..0] == [];
    assert TextOf([]) + p.arguments == p.arguments;
  }

  lemma FilledNext(ps: seq<ToolPiece>, p: ToolPiece, streamingJson: string -> string)
    ensures FilledAll(ps + [p], streamingJson) ==
            Filled(FilledAll(ps, streamingJson), p, TextOf(ps + [p]), streamingJson)
    ensures TextOf(ps + [p]) == TextOf(ps) + p.arguments
  {
    assert (ps + [p])[..|ps|] == ps;
  }

  lemma FillingNext(output: seq<Block>, folds: seq<FoldBlock>, byIndex: map<int, nat>, byId: map<string, nat>,
                    pieces: seq<ToolPiece>, routes: seq<nat>, streamingJson: string -> string, p: ToolPiece, k: nat,
                    after: seq<Block>, foldsAfter: seq<FoldBlock>)
    requires Filling(output, folds, pieces, routes, streamingJson) && Placed(output, folds, byIndex, byId)
    requires k <= |folds| && Delivered(folds, byIndex, pieces, routes)
    requires if k == |folds| then
               && foldsAfter == folds + [FoldBlock(IndexOf(p), |output|, p.arguments)]
               && after == output + [Filled(Empty(ToolKind).(id := p.id, name := p.name), p, p.arguments,
                                            streamingJson)]
             else
               var i := folds[k].contentIndex;
               && foldsAfter == folds[k := folds[k].(partialArgs := folds[k].partialArgs + p.arguments)]
               && i < |output| && after == output[i := Filled(output[i], p, foldsAfter[k].partialArgs, streamingJson)]
    ensures Filling(after, foldsAfter, pieces + [p], routes + [k], streamingJson)
  {
    hide FilledAll, TextOf, PiecesTo, Filled, SentTo, IsIndexed;
    forall j | 0 <= j < |foldsAfter|
      ensures FillingAt(after, foldsAfter[j], PiecesTo(pieces + [p], routes + [k], j), streamingJson)
    {
      PiecesToSnoc(pieces, routes, p, k, j);
      if j < |folds| {
        var ps := PiecesTo(pieces, routes, j);
        assert FillingAt(output, folds[j], ps, streamingJson);
        FilledNext(ps, p, streamingJson);
        assert ps + [] == ps;
      } else {
        NoPieces(pieces, routes, j);
        FilledFirst(p, streamingJson);
        assert [] + [p] == [p];
      }
    }
  }

  /** What a tool piece leaves as it should be: text and reasoning, what went where, and what each call holds. */
  lemma CalledPieceKeeps(before: seq<Block>, openedBlocks: seq<Block>, output: seq<Block>, folds0: seq<FoldBlock>,
                         folds1: seq<FoldBlock>, folds: seq<FoldBlock>, byIndex0: map<int, nat>,
                         byIndex: map<int, nat>, byId0: map<string, nat>, byId: map<string, nat>, textIn: string,
                         thinkingIn: string, pieces: seq<ToolPiece>, routes: seq<nat>, streamingJson: string -> string,
                         p: ToolPiece, k: nat)
    requires Holds(before, TextKind, textIn) && Holds(before, ThinkingKind, thinkingIn)
    requires Placed(before, folds0, byIndex0, byId0) && Delivered(folds0, byIndex0, pieces, routes)
    requires (Consistent(pieces) ==> Routed(folds0, byId0, pieces, routes))
             && Filling(before, folds0, pieces, routes, streamingJson)
    requires k == Resolve(|folds0|, byIndex0, byId0, p) < |folds1| && k <= |folds0|
    requires if k == |folds0| then
               && folds1 == folds0 + [FoldBlock(IndexOf(p), |before|, "")]
               && openedBlocks == before + [Empty(ToolKind).(id := p.id, name := p.name)]
               && byIndex == (if IndexOf(p) >= 0 then byIndex0[IndexOf(p) := k] else byIndex0)
             else folds1 == folds0 && openedBlocks == before && byIndex == byIndex0
    requires byId == byId0 || (p.id != "" && byId == byId0[p.id := k])
    requires folds == folds1[k := folds1[k].(partialArgs := folds1[k].partialArgs + p.arguments)]
    requires var i := folds1[k].contentIndex;
             && i < |openedBlocks| && openedBlocks[i].kind.ToolKind?
             && output == openedBlocks[i := Filled(openedBlocks[i], p, folds[k].partialArgs, streamingJson)]
    ensures Holds(output, TextKind, textIn) && Holds(output, ThinkingKind, thinkingIn)
    ensures Delivered(folds, byIndex, pieces + [p], routes + [k])
    ensures Consistent(pieces + [p]) ==> Routed(folds, byId, pieces + [p], routes + [k])
    ensures Filling(output, folds, pieces + [p], routes + [k], streamingJson)
  {
    hide Holds, Placed, Delivered, Consistent, Routed, Filling;
    OneCall(folds0, folds1, folds, k, p, |before|);
    HoldsTool(before, openedBlocks, output, folds1[k].contentIndex, TextKind, textIn);
    HoldsTool(before, openedBlocks, output, folds1[k].contentIndex, ThinkingKind, thinkingIn);
    DeliveredNext(folds0, byIndex0, pieces, routes, k, p, |before|, folds, byIndex);
    if Consistent(pieces + [p]) {
      ConsistentPrefix(pieces, p);
      RoutedNext(folds0, byIndex0, byId0, pieces, routes, p, |before|, folds, byIndex, byId);
    }
    FillingNext(before, folds0, byIndex0, byId0, pieces, routes, streamingJson, p, k, output, folds);
  }

  class Fold {
    const streamingJson: string -> string
    const finalJson: string -> string
    var output: seq<Block>
    var folds: seq<FoldBlock>
    var byIndex: map<int, nat>
    var byId: map<string, nat>
    /** The events sent so far, and the text, reasoning and tool pieces received so far. */
    ghost var sent: seq<StreamEvent>
    ghost var textIn: string
    ghost var thinkingIn: string
    ghost var pieces: seq<ToolPiece>
    /** The call each piece went to. */
    ghost var routes: seq<nat>

    ghost predicate Valid()
      reads `output, `folds, `byIndex, `byId, `sent, `textIn, `thinkingIn, `pieces, `routes
    {
      && AllAgree(FoldAll(sent), output)
      && Holds(output, TextKind, textIn) && Holds(output, ThinkingKind, thinkingIn)
      && Placed(output, folds, byIndex, byId)
      && Delivered(folds, byIndex, pieces, routes)
      && (Consistent(pieces) ==> Routed(folds, byId, pieces, routes))
      && Filling(output, folds, pieces, routes, streamingJson)
    }

    constructor (streamingJson: string -> string, finalJson: string -> string)
      ensures Valid() && output == [] && sent == [] && textIn == "" && thinkingIn == "" && pieces == [] && routes == []
    {
      this.streamingJson, this.finalJson := streamingJson, finalJson;
      output, folds, byIndex, byId := [], [], map[], map[];
      sent, textIn, thinkingIn, pieces, routes := [], "", "", [], [];
    }

    method LastBlock(kind: Kind) returns (i: Option<nat>)
      ensures i == LastOf(output, kind)
    {
      var k: nat := |output|;
      while k > 0
        invariant k <= |output| && forall j :: k <= j < |output| ==> output[j].kind != kind
      {
        k := k - 1;
        if output[k].kind == kind {
          return Some(k);
        }
      }
      return None;
    }

    /** Text goes to the one text block, and opens it if it is not there yet. */
    method FoldTextDelta(text: string) returns (events: seq<StreamEvent>)
      requires Valid()
      modifies `output, `sent, `textIn
      ensures Valid() && sent == old(sent) + events && textIn == old(textIn) + text
      ensures match LastOf(old(output), TextKind)
              case None => output == old(output) + [Empty(TextKind).(text := text)]
                           && events == [TextStart(|old(output)|), TextDelta(|old(output)|, text)]
              case Some(i) => output == old(output)[i := old(output)[i].(text := old(output)[i].text + text)]
                              && events == [TextDelta(i, text)]
    {
      hide FoldAll, FoldOne, AllAgree, Placed, Delivered, Consistent, Routed, LastOf, Holds, Filling;
      ghost var before, b := output, FoldAll(sent);
      AgreesSize(b, output);
      var at := LastBlock(TextKind);
      if at.None? {
        var i := |output|;
        output := output + [Empty(TextKind).(text := text)];
        events := [TextStart(i), TextDelta(i, text)];
        AgreesOpen(b, before, events[0], events[1], output[i]);
        HoldsFirst(before, TextKind, textIn, output[i]);
        assert textIn + text == text;
      } else {
        var i := at.value;
        output := output[i := output[i].(text := output[i].text + text)];
        events := [TextDelta(i, text)];
        AgreesUpdate(b, before, i, events[0], output[i]);
        HoldsMore(before, TextKind, textIn, text, output[i]);
      }
      FoldAppend(sent, events);
      HoldsElsewhere(before, output, ThinkingKind, thinkingIn);
      PlacedLater(before, output, folds, byIndex, byId);
      FillingElsewhere(before, output, folds, byIndex, byId, pieces, routes, streamingJson);
      sent := sent + events;
      textIn := textIn + text;
    }

    /** Reasoning goes to the one reasoning block, in the same way. */
    method FoldThinkingDelta(delta: string) returns (events: seq<StreamEvent>)
      requires Valid()
      modifies `output, `sent, `thinkingIn
      ensures Valid() && sent == old(sent) + events && thinkingIn == old(thinkingIn) + delta
      ensures match LastOf(old(output), ThinkingKind)
              case None => output == old(output) + [Empty(ThinkingKind).(thinking := delta)]
                           && events == [ThinkingStart(|old(output)|), ThinkingDelta(|old(output)|, delta)]
              case Some(i) => output == old(output)[i := old(output)[i].(thinking := old(output)[i].thinking + delta)]
                              && events == [ThinkingDelta(i, delta)]
    {
      hide FoldAll, FoldOne, AllAgree, Placed, Delivered, Consistent, Routed, LastOf, Holds, Filling;
      ghost var before, b := output, FoldAll(sent);
      AgreesSize(b, output);
      var at := LastBlock(ThinkingKind);
      if at.None? {
        var i := |output|;
        output := output + [Empty(ThinkingKind).(thinking := delta)];
        events := [ThinkingStart(i), ThinkingDelta(i, delta)];
        AgreesOpen(b, before, events[0], events[1], output[i]);
        HoldsFirst(before, ThinkingKind, thinkingIn, output[i]);
        assert thinkingIn + delta == delta;
      } else {
        var i := at.value;
        output := output[i := output[i].(thinking := output[i].thinking + delta)];
        events := [ThinkingDelta(i, delta)];
        AgreesUpdate(b, before, i, events[0], output[i]);
        HoldsMore(before, ThinkingKind, thinkingIn, delta, output[i]);
      }
      FoldAppend(sent, events);
      HoldsElsewhere(before, output, TextKind, textIn);
      PlacedLater(before, output, folds, byIndex, byId);
      FillingElsewhere(before, output, folds, byIndex, byId, pieces, routes, streamingJson);
      sent := sent + events;
      thinkingIn := thinkingIn + delta;
    }

    /** Finds or opens the call a piece belongs to. */
    method Locate(p: ToolPiece) returns (k: nat, events: seq<StreamEvent>)
      requires AllAgree(FoldAll(sent), output) && Placed(output, folds, byIndex, byId)
      modifies `output, `folds, `byIndex, `byId
      ensures AllAgree(FoldAll(sent + events), output) && Placed(output, folds, byIndex, byId)
      ensures k == Resolve(|old(folds)|, old(byIndex), old(byId), p) < |folds| && k <= |old(folds)|
      ensures k < |old(folds)| ==>
              events == [] && output == old(output) && folds == old(folds) && byIndex == old(byIndex)
              && byId == old(byId)
      ensures k == |old(folds)| ==>
                && events == [ToolStart(|old(output)|, Some(Empty(ToolKind).(id := p.id, name := p.name)))]
                && output == old(output) + [Empty(ToolKind).(id := p.id, name := p.name)]
                && folds == old(folds) + [FoldBlock(IndexOf(p), |old(output)|, "")]
                && byIndex == (if IndexOf(p) >= 0 then old(byIndex)[IndexOf(p) := k] else old(byIndex))
                && byId == (if p.id != "" then old(byId)[p.id := k] else old(byId))
    {
      hide FoldAll, FoldOne, AllAgree;
      events := [];
      FoldAppend(sent, events);
      k := Resolve(|folds|, byIndex, byId, p);
      if k == |folds| {
        var i := |output|;
        var block := Empty(ToolKind).(id := p.id, name := p.name);
        AgreesSize(FoldAll(sent), output);
        events := [ToolStart(i, Some(block))];
        AgreesSnoc(FoldAll(sent), output, events[0], block);
        FoldAppend(sent, events);
        output := output + [block];
        folds := folds + [FoldBlock(IndexOf(p), i, "")];
        if IndexOf(p) >= 0 {
          byIndex := byIndex[IndexOf(p) := k];
        }
        if p.id != "" {
          byId := byId[p.id := k];
        }
      }
    }

    /** Fills in what the piece brings: identity where it was missing, arguments at the end of the call's text. */
    method Fill(p: ToolPiece, k: nat, ghost before: seq<StreamEvent>) returns (events: seq<StreamEvent>)
      requires AllAgree(FoldAll(before), output) && Placed(output, folds, byIndex, byId) && k < |folds|
      modifies `output, `folds, `byId
      ensures AllAgree(FoldAll(before + events), output) && Placed(output, folds, byIndex, byId)
      ensures folds == old(folds)[k := old(folds)[k].(partialArgs := old(folds)[k].partialArgs + p.arguments)]
      ensures var i := old(folds)[k].contentIndex;
              && i < |old(output)| && old(output)[i].kind.ToolKind?
              && output == old(output)[i := Filled(old(output)[i], p, folds[k].partialArgs, streamingJson)]
              && byId == (if p.id != "" && old(output)[i].id == "" then old(byId)[p.id := k] else old(byId))
              && events == if p.arguments != "" then [ToolDelta(i, p.arguments)] else []
    {
      hide FoldAll, FoldOne, AllAgree, Placed, Agrees;
      PlacedAt(output, folds, byIndex, byId, k);
      var i := folds[k].contentIndex;
      var block := Identify(output[i], p);
      if p.id != "" && output[i].id == "" {
        byId := byId[p.id := k];
      }
      AgreesTool(FoldAll(before), output, i, block);
      output := output[i := block];
      AppendArgs(folds, k, p.arguments);
      if p.arguments != "" {
        folds := folds[k := folds[k].(partialArgs := folds[k].partialArgs + p.arguments)];
        var after := block.(arguments := streamingJson(folds[k].partialArgs));
        events := [ToolDelta(i, p.arguments)];
        AgreesToolDelta(FoldAll(before), output, i, events[0], after);
        output := output[i := after];
      } else {
        events := [];
      }
      FoldAppend(before, events);
      PlacedUpdate(old(output), old(folds), byIndex, old(byId), output, folds, byId, k);
    }

    /** A piece goes to the call with its index, else to the one with its identifier, else to a new one. */
    method FoldToolCallDelta(p: ToolPiece) returns (events: seq<StreamEvent>)
      requires Valid()
      modifies `output, `folds, `byIndex, `byId, `sent, `pieces, `routes
      ensures Valid() && sent == old(sent) + events && pieces == old(pieces) + [p]
      ensures routes == old(routes) + [Resolve(|old(folds)|, old(byIndex), old(byId), p)]
      ensures var k := Resolve(|old(folds)|, old(byIndex), old(byId), p);
              folds == if k == |old(folds)| then old(folds) + [FoldBlock(IndexOf(p), |old(output)|, p.arguments)]
                       else old(folds)[k := old(folds)[k].(partialArgs := old(folds)[k].partialArgs + p.arguments)]
      ensures var k := Resolve(|old(folds)|, old(byIndex), old(byId), p);
              if k == |old(folds)| then
                && output == old(output) + [Filled(Empty(ToolKind).(id := p.id, name := p.name), p, p.arguments,
                                                   streamingJson)]
                && byIndex == (if IndexOf(p) >= 0 then old(byIndex)[IndexOf(p) := k] else old(byIndex))
                && byId == (if p.id != "" then old(byId)[p.id := k] else old(byId))
              else
                var i := old(folds)[k].contentIndex;
                && output == old(output)[i := Filled(old(output)[i], p, folds[k].partialArgs, streamingJson)]
                && byIndex == old(byIndex)
                && byId == if p.id != "" && old(output)[i].id == "" then old(byId)[p.id := k] else old(byId)
      ensures var k := Resolve(|old(folds)|, old(byIndex), old(byId), p);
              events == (if k == |old(folds)| then [ToolStart(|old(output)|,
                                                              Some(Empty(ToolKind).(id := p.id, name := p.name)))]
                                                              else [])
                        + (if p.arguments != "" then [ToolDelta(folds[k].contentIndex, p.arguments)] else [])
    {
      hide FoldAll, FoldOne, AllAgree, Placed, Delivered, Consistent, Routed, Holds, Agrees, Filling, Taken;
      ghost var before, folds0, byIndex0, byId0 := output, folds, byIndex, byId;
      var k, more;
      k, events := Locate(p);
      ghost var folds1, openedBlocks := folds, output;
      more := Fill(p, k, sent + events);
      OneCall(folds0, folds1, folds, k, p, |before|);
      CalledPieceKeeps(before, openedBlocks, output, folds0, folds1, folds, byIndex0, byIndex, byId0, byId, textIn,
                       thinkingIn, pieces, routes, streamingJson, p, k);
      assert sent + events + more == sent + (events + more);
      events := events + more;
      sent := sent + events;
      pieces, routes := pieces + [p], routes + [k];
    }

    /** The tool pieces of a choice, in order. */
    method FoldToolCalls(calls: seq<ToolPiece>) returns (events: seq<StreamEvent>)
      requires Valid()
      modifies `output, `folds, `byIndex, `byId, `sent, `pieces, `routes
      ensures Valid() && sent == old(sent) + events && pieces == old(pieces) + calls && AllOf(events, ToolKind)
    {
      hide Valid, Resolve, Filled;
      Unchanged(sent, pieces, textIn, thinkingIn);
      events := [];
      for i := 0 to |calls|
        invariant Valid() && sent == old(sent) + events && pieces == old(pieces) + calls[..i]
        invariant AllOf(events, ToolKind)
      {
        var evs := FoldToolCallDelta(calls[i]);
        AssociateEvents(old(sent), events, evs);
        events := events + evs;
      }
      assert calls[..|calls|] == calls;
    }

    /** One choice: its text, its reasoning (the standard field first), and its tool pieces, in that order. Empty text
        is skipped. */
    method FoldChoice(c: Choice)
      returns (events: seq<StreamEvent>, ghost spoken: seq<StreamEvent>, ghost thought: seq<StreamEvent>,
               ghost called: seq<StreamEvent>)
      requires Valid()
      modifies `output, `folds, `byIndex, `byId, `sent, `textIn, `thinkingIn, `pieces, `routes
      ensures Valid() && sent == old(sent) + events && pieces == old(pieces) + c.calls
              && textIn == old(textIn) + c.content
      ensures thinkingIn == old(thinkingIn) + if c.reasoningContent != "" then c.reasoningContent else c.reasoning
      ensures events == spoken + thought + called
              && AllOf(spoken, TextKind) && AllOf(thought, ThinkingKind) && AllOf(called, ToolKind)
    {
      hide Valid, LastOf;
      Unchanged(sent, pieces, textIn, thinkingIn);
      spoken, thought, called := [], [], [];
      events := [];
      if c.content != "" {
        events := FoldTextDelta(c.content);
        spoken := events;
      }
      var reasoning := if c.reasoningContent != "" then c.reasoningContent else c.reasoning;
      if reasoning != "" {
        var evs := FoldThinkingDelta(reasoning);
        AssociateEvents(old(sent), events, evs);
        events := events + evs;
        thought := evs;
      }
      var evs := FoldToolCalls(c.calls);
      AssociateEvents(old(sent), events, evs);
      events := events + evs;
      called := evs;
    }

    /** The call at a place of the message, if a map still leads to it; the maps are searched in no particular order. */
    method CallAt(i: nat) returns (k: Option<nat>)
      requires Placed(output, folds, byIndex, byId)
      ensures k.Some? ==>
              k.value < |folds| && folds[k.value].contentIndex == i && k.value in byIndex.Values + byId.Values
      ensures k.None? ==> forall j :: j in byIndex.Values + byId.Values && j < |folds| ==> folds[j].contentIndex != i
    {
      var candidates := byIndex.Values + byId.Values;
      MapsLead(output, folds, byIndex, byId);
      while candidates != {}
        invariant candidates <= byIndex.Values + byId.Values
        invariant forall j :: j in byIndex.Values + byId.Values && j !in candidates && j < |folds| ==>
                  folds[j].contentIndex != i
        decreases |candidates|
      {
        var j :| j in candidates;
        if folds[j].contentIndex == i {
          return Some(j);
        }
        candidates := candidates - {j};
      }
      return None;
    }

    /** Closes the block at place `i`. */
    method Close(i: nat) returns (ev: StreamEvent)
      requires i < |output| && AllAgree(FoldAll(sent), output) && Placed(output, folds, byIndex, byId)
      modifies `output, `sent
      ensures sent == old(sent) + [ev] && AllAgree(FoldAll(sent), output) && Placed(output, folds, byIndex, byId)
      ensures |output| == |old(output)| && output == old(output)[i := output[i]] && ev == Closing(i, output[i])
      ensures output[i].(arguments := "") == old(output)[i].(arguments := "")
              && (!output[i].kind.ToolKind? ==> output[i] == old(output)[i])
      ensures |old(FoldAll(sent))| == |output|
              && exists c :: FoldAll(sent) == old(FoldAll(sent))[i := c] && Same(c, output[i])
      ensures forall k :: k in byIndex.Values + byId.Values && k < |folds| && folds[k].contentIndex == i ==>
                output[i].arguments == finalJson(folds[k].partialArgs)
      ensures Lost(i, folds, byIndex.Values + byId.Values) ==> output[i] == old(output)[i]
    {
      hide FoldAll, FoldOne, AllAgree, Agrees, Placed;
      ghost var before, b := output, FoldAll(sent);
      AgreesSize(b, output);
      var block := output[i];
      if block.kind.ToolKind? {
        var k := CallAt(i);
        if k.Some? {
          block := block.(arguments := finalJson(folds[k.value].partialArgs));
          SamePlace(output, folds, byIndex, byId, k.value);
        }
      } else {
        PlacesAreTools(output, folds, byIndex, byId, i);
      }
      ev := Closing(i, block);
      output := output[i := block];
      ClosingAgrees(b, before, i, block, ev);
      PlacedLater(before, output, folds, byIndex, byId);
      FoldSnoc(sent, ev);
      sent := sent + [ev];
    }

    /** The closing events make the builder's message equal to this one. */
    method Finalize() returns (events: seq<StreamEvent>)
      requires Valid()
      modifies `output, `sent
      ensures sent == old(sent) + events && AllSame(FoldAll(sent), output)
      ensures |events| == |output| && forall i :: 0 <= i < |output| ==> events[i] == Closing(i, output[i])
      ensures ClosedTo(|output|, old(output), output, FoldAll(sent), folds, byIndex.Values + byId.Values, finalJson)
    {
      hide FoldAll, FoldOne, AllAgree, Agrees, Delivered, Consistent, Routed, Holds, Placed, ClosedTo, Filling;
      ghost var before := output;
      events := [];
      AssociateEvents(sent, [], []);
      AgreesSize(FoldAll(sent), output);
      NothingClosed(output, FoldAll(sent), folds, byIndex.Values + byId.Values, finalJson);
      for i := 0 to |output|
        invariant |output| == |before| && sent == old(sent) + events
        invariant |events| == i && forall j :: 0 <= j < i ==> events[j] == Closing(j, output[j])
        invariant AllAgree(FoldAll(sent), output) && Placed(output, folds, byIndex, byId)
        invariant ClosedTo(i, before, output, FoldAll(sent), folds, byIndex.Values + byId.Values, finalJson)
      {
        ghost var content, output0 := FoldAll(sent), output;
        var ev := Close(i);
        ClosedNext(i, before, output0, output, content, FoldAll(sent), folds, byIndex.Values + byId.Values, finalJson);
        AssociateEvents(old(sent), events, [ev]);
        events := events + [ev];
      }
      AllClosed(before, output, FoldAll(sent), folds, byIndex.Values + byId.Values, finalJson);
    }

    /** Whatever came in between, every call's buffer, indexed or not, is the concatenation of the pieces that went to
        it; and at every point of the stream every index has exactly the text sent for it, if and only if no piece with
        text went to a call of another stream index. */
    lemma BuffersAreConcatenations()
      requires Valid()
      ensures |routes| == |pieces| && forall j :: 0 <= j < |routes| ==> routes[j] < |folds|
      ensures forall k :: 0 <= k < |folds| ==> folds[k].partialArgs == SentTo(pieces, routes, k)
      ensures forall s :: s in byIndex ==>
                byIndex[s] < |folds| && folds[byIndex[s]].partialArgs == SentTo(pieces, Labels(folds, routes), s)
      ensures (forall i :: 0 <= i <= |pieces| ==> PerIndex(pieces[..i], Labels(folds, routes)[..i])) <==>
              (forall j :: 0 <= j < |pieces| ==> Fits(pieces[j], folds[routes[j]].streamIndex))
    {
      hide AllAgree, Holds, Placed, Consistent, Routed, FoldAll, SentTo, PerIndex, Fits;
      PerIndexExactly(pieces, Labels(folds, routes));
      forall s | s in byIndex
        ensures folds[byIndex[s]].partialArgs == SentTo(pieces, Labels(folds, routes), s)
      {
        SentToIndex(folds, byIndex, pieces, routes, s);
      }
    }

    /** In particular when every piece has an index and identifiers keep to one index. */
    lemma ConsistentBuffers(s: int)
      requires Valid() && Consistent(pieces) && s in byIndex
      ensures byIndex[s] < |folds| && folds[byIndex[s]].streamIndex == s
              && folds[byIndex[s]].partialArgs == JoinedArgs(pieces, s)
    {
      hide AllAgree, Holds, Placed, Consistent, FoldAll, JoinedArgs, SentTo;
      BuffersAreConcatenations();
      assert PerIndex(pieces[..|pieces|], Labels(folds, routes)[..|pieces|]);
      assert pieces[..|pieces|] == pieces && Labels(folds, routes)[..|pieces|] == Labels(folds, routes);
    }

    /** What each call is before the closing events, whatever came in between: the first identifier and the first name
        among its pieces, and what their text, put together, parses to. */
    lemma CallsMean(k: nat)
      requires Valid() && k < |folds|
      ensures |routes| == |pieces| && folds[k].contentIndex < |output|
      ensures var ps, b := PiecesTo(pieces, routes, k), output[folds[k].contentIndex];
              && b.kind.ToolKind? && IsFirst(Ids(ps), b.id) && IsFirst(Names(ps), b.name)
              && folds[k].partialArgs == TextOf(ps)
              && b.arguments == if TextOf(ps) == "" then "" else streamingJson(TextOf(ps))
    {
      hide AllAgree, Holds, Placed, Consistent, Routed, Delivered, FoldAll, FilledAll, TextOf, PiecesTo, IsFirst;
      assert FillingAt(output, folds[k], PiecesTo(pieces, routes, k), streamingJson);
      FilledMeans(PiecesTo(pieces, routes, k), streamingJson);
    }

    /** So are the text and the reasoning. */
    lemma TextIsConcatenation()
      requires Valid()
      ensures textIn == (if LastOf(output, TextKind).Some? then output[LastOf(output, TextKind).value].text else "")
      ensures thinkingIn == (if LastOf(output, ThinkingKind).Some?
                             then output[LastOf(output, ThinkingKind).value].thinking else "")
      ensures |FoldAll(sent)| == |output| && forall i :: 0 <= i < |output| ==>
                FoldAll(sent)[i].text == output[i].text && FoldAll(sent)[i].thinking == output[i].thinking
    {
      hide Placed, Delivered, Consistent, Routed, FoldAll, LastOf;
    }
  }

  /** The first identifier and the first name that come are the call's. */
  function Identify(b: Block, p: ToolPiece): Block {
    b.(id := if b.id == "" then p.id else b.id, name := if b.name == "" then p.name else b.name)
  }

  /** A call after a piece: identified, and with its arguments parsed again when the piece brought some. */
  function Filled(b: Block, p: ToolPiece, partialArgs: string, streamingJson: string -> string): Block {
    Identify(b, p).(arguments := if p.arguments != "" then streamingJson(partialArgs) else b.arguments)
  }

  lemma AppendArgs(folds: seq<FoldBlock>, k: nat, arguments: string)
    requires k < |folds|
    ensures arguments == "" ==> folds[k := folds[k].(partialArgs := folds[k].partialArgs + arguments)] == folds
  {
    assert arguments == "" ==> folds[k].partialArgs + arguments == folds[k].partialArgs;
  }

  /** Opening a call, or changing one, leaves text and reasoning as they were. */
  lemma HoldsTool(before: seq<Block>, openedBlocks: seq<Block>, after: seq<Block>, i: nat, kind: Kind, received: string)
    requires Holds(before, kind, received) && !kind.ToolKind?
    requires openedBlocks == before || (|openedBlocks| == |before| + 1 && openedBlocks[..|before|] == before
                                        && openedBlocks[|before|].kind.ToolKind?)
    requires i < |openedBlocks| == |after| && openedBlocks[i].kind.ToolKind? && after == openedBlocks[i := after[i]]
             && after[i].kind.ToolKind?
    ensures Holds(after, kind, received)
  {
    hide Holds, BodyOf;
    assert forall j :: 0 <= j < |before| ==> openedBlocks[j] == before[j];
    HoldsElsewhere(before, after, kind, received);
  }

  /** The first `i` blocks are closed: equal to the builder's, and with final arguments where the call is still
      known. */
  ghost predicate ClosedTo(i: nat, before: seq<Block>, output: seq<Block>, content: seq<Block>, folds: seq<FoldBlock>,
                           known: set<nat>, finalJson: string -> string) {
    && |output| == |before| == |content|
    && (forall j :: 0 <= j < |output| ==> output[j].(arguments := "") == before[j].(arguments := ""))
    && (forall j :: 0 <= j < |output| && !output[j].kind.ToolKind? ==> output[j] == before[j])
    && (forall j :: 0 <= j < i && j < |output| ==> Same(content[j], output[j]))
    && (forall k :: k in known && k < |folds| ==> FinalAt(i, output, folds[k], finalJson))
    && (forall j :: 0 <= j < |output| && Lost(j, folds, known) ==> output[j] == before[j])
  }

  /** No known call is at place `i`. */
  ghost predicate Lost(i: nat, folds: seq<FoldBlock>, known: set<nat>) {
    forall k :: k in known && k < |folds| ==> folds[k].contentIndex != i
  }

  predicate FinalAt(i: nat, output: seq<Block>, f: FoldBlock, finalJson: string -> string) {
    f.contentIndex < i && f.contentIndex < |output| ==> output[f.contentIndex].arguments == finalJson(f.partialArgs)
  }

  lemma NothingClosed(output: seq<Block>, content: seq<Block>, folds: seq<FoldBlock>, known: set<nat>,
                      finalJson: string -> string)
    requires |content| == |output|
    ensures ClosedTo(0, output, output, content, folds, known, finalJson)
  {
  }

  lemma AllClosed(before: seq<Block>, output: seq<Block>, content: seq<Block>, folds: seq<FoldBlock>, known: set<nat>,
                  finalJson: string -> string)
    requires ClosedTo(|output|, before, output, content, folds, known, finalJson)
    ensures AllSame(content, output)
  {
  }

  lemma ClosedNext(i: nat, before: seq<Block>, output: seq<Block>, output': seq<Block>, content: seq<Block>,
                   content': seq<Block>, folds: seq<FoldBlock>, known: set<nat>, finalJson: string -> string)
    requires ClosedTo(i, before, output, content, folds, known, finalJson) && i < |output| == |output'|
    requires output' == output[i := output'[i]] && output'[i].(arguments := "") == output[i].(arguments := "")
    requires !output'[i].kind.ToolKind? ==> output'[i] == output[i]
    requires exists c :: content' == content[i := c] && Same(c, output'[i])
    requires forall k :: k in known && k < |folds| && folds[k].contentIndex == i ==>
             output'[i].arguments == finalJson(folds[k].partialArgs)
    requires Lost(i, folds, known) ==> output'[i] == output[i]
    ensures ClosedTo(i + 1, before, output', content', folds, known, finalJson)
  {
    forall k | k in known && k < |folds|
      ensures FinalAt(i + 1, output', folds[k], finalJson)
    {
      assert FinalAt(i, output, folds[k], finalJson);
    }
  }

  lemma Unchanged(sent: seq<StreamEvent>, pieces: seq<ToolPiece>, text: string, thinking: string)
    ensures sent + [] == sent && pieces + [] == pieces && text + "" == text && thinking + "" == thinking
  {
  }

  lemma AssociateEvents(a: seq<StreamEvent>, b: seq<StreamEvent>, c: seq<StreamEvent>)
    ensures (a + b) + c == a + (b + c)
    ensures c == [] ==> a + c == a
  {
  }

  lemma OneCall(folds0: seq<FoldBlock>, folds1: seq<FoldBlock>, folds: seq<FoldBlock>, k: nat, p: ToolPiece, n: nat)
    requires k < |folds1| && folds == folds1[k := folds1[k].(partialArgs := folds1[k].partialArgs + p.arguments)]
    requires k < |folds0| ==> folds1 == folds0
    requires k == |folds0| ==> folds1 == folds0 + [FoldBlock(IndexOf(p), n, "")]
    ensures k == |folds0| ==> folds == folds0 + [FoldBlock(IndexOf(p), n, p.arguments)]
  {
    assert "" + p.arguments == p.arguments;
  }

  lemma MapsLead(output: seq<Block>, folds: seq<FoldBlock>, byIndex: map<int, nat>, byId: map<string, nat>)
    requires Placed(output, folds, byIndex, byId)
    ensures forall j :: j in byIndex.Values + byId.Values ==> j < |folds|
  {
    forall j | j in byIndex.Values + byId.Values
      ensures j < |folds|
    {
      if j in byIndex.Values {
        var s := KeyOf(byIndex, j);
      } else {
        var x := KeyOf(byId, j);
      }
    }
  }

  lemma KeyOf<K>(m: map<K, nat>, v: nat) returns (k: K)
    requires v in m.Values
    ensures k in m && m[k] == v
  {
    k :| k in m && m[k] == v;
  }

  lemma PlacesAreTools(output: seq<Block>, folds: seq<FoldBlock>, byIndex: map<int, nat>, byId: map<string, nat>,
                       i: nat)
    requires Placed(output, folds, byIndex, byId) && i < |output| && !output[i].kind.ToolKind?
    ensures forall k :: 0 <= k < |folds| ==> folds[k].contentIndex != i
  {
  }

  lemma SamePlace(output: seq<Block>, folds: seq<FoldBlock>, byIndex: map<int, nat>, byId: map<string, nat>, k: nat)
    requires Placed(output, folds, byIndex, byId) && k < |folds|
    ensures forall j :: 0 <= j < |folds| && folds[j].contentIndex == folds[k].contentIndex ==> j == k
  {
  }

  lemma ClosingAgrees(b: seq<Block>, p: seq<Block>, i: nat, block: Block, ev: StreamEvent)
    requires AllAgree(b, p) && i < |p| && block.(arguments := "") == p[i].(arguments := "")
             && (!p[i].kind.ToolKind? ==> block == p[i])
    requires ev == Closing(i, block)
    ensures |b| == |p| && FoldOne(b, ev) == b[i := OnBlock(b[i], ev)]
    ensures AllAgree(FoldOne(b, ev), p[i := block]) && Same(OnBlock(b[i], ev), block)
  {
    hide FoldOne;
    AgreesSize(b, p);
    AgreesUpdate(b, p, i, ev, block);
  }

  lemma PlacedAt(output: seq<Block>, folds: seq<FoldBlock>, byIndex: map<int, nat>, byId: map<string, nat>, k: nat)
    requires Placed(output, folds, byIndex, byId) && k < |folds|
    ensures folds[k].contentIndex < |output| && output[folds[k].contentIndex].kind.ToolKind?
  {
  }

  lemma PlacedLater(output: seq<Block>, after: seq<Block>, folds: seq<FoldBlock>, byIndex: map<int, nat>,
                    byId: map<string, nat>)
    requires Placed(output, folds, byIndex, byId) && |output| <= |after|
    requires forall i :: 0 <= i < |output| ==> after[i].kind == output[i].kind
    ensures Placed(after, folds, byIndex, byId)
  {
  }

  lemma PlacedUpdate(output: seq<Block>, folds: seq<FoldBlock>, byIndex: map<int, nat>, byId: map<string, nat>,
                     after: seq<Block>, folds': seq<FoldBlock>, byId': map<string, nat>, k: nat)
    requires Placed(output, folds, byIndex, byId) && k < |folds| == |folds'| && |output| == |after|
    requires forall i :: 0 <= i < |output| ==> after[i].kind == output[i].kind
    requires forall j :: 0 <= j < |folds| ==> folds'[j].contentIndex == folds[j].contentIndex
    requires forall x :: x in byId' ==> byId'[x] == k || (x in byId && byId'[x] == byId[x])
    ensures Placed(after, folds', byIndex, byId')
  {
  }

  /** A call's identity is not compared before it is closed. */
  lemma AgreesTool(b: seq<Block>, p: seq<Block>, i: nat, after: Block)
    requires AllAgree(b, p) && i < |p| && p[i].kind.ToolKind? && after == p[i].(id := after.id, name := after.name)
    ensures AllAgree(b, p[i := after])
  {
  }

  lemma AgreesToolDelta(b: seq<Block>, p: seq<Block>, i: nat, ev: StreamEvent, after: Block)
    requires AllAgree(b, p) && i < |p| && p[i].kind.ToolKind? && ev.ToolDelta? && ev.index == i
             && after == p[i].(arguments := after.arguments)
    ensures AllAgree(FoldOne(b, ev), p[i := after])
  {
    hide FoldOne;
    AgreesUpdate(b, p, i, ev, after);
  }
}
