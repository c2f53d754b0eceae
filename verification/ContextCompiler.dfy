// The closed-choice context compiler: required blocks always, optional blocks greedily
// while the whole payload stays within a token budget.
module ContextCompiler {
  import opened Base
  import opened Json
  import opened JsonLength
  import opened Keyset
  import Text

  datatype Block = Block(
    blockId: string, kind: string, priority: int, required: bool, freshness: string, sourceDigest: Digest, payload: Value)
  {
    function Tokens(): int { Estimate(payload) }

    function ToJson(): Value {
      Obj(map[
        "blockId" := Str(blockId),
        "kind" := Str(kind),
        "priority" := Num(priority),
        "required" := Bool(required),
        "freshness" := Str(freshness),
        "sourceDigest" := Hash(sourceDigest),
        "payloadDigest" := Hash(Digest(payload)),
        "estimatedTokens" := Num(Tokens()),
        "payload" := payload])
    }
  }

  // Four canonical bytes a token, rounded up, at least one.
  function Estimate(v: Value): int {
    Max(1, (EncodedLength(v) + 3) / 4)
  }

  datatype Action = Action(
    actionId: string, kind: string, summary: string, effectId: Option<string>, bindingId: Option<string>,
    dispatchId: Option<string>, requiredWorld: Option<Digest>)
  {
    function ToJson(): Value {
      Obj(map[
        "actionId" := Str(actionId),
        "kind" := Str(kind),
        "summary" := Str(summary),
        "effectId" := NullOr(effectId),
        "bindingId" := NullOr(bindingId),
        "dispatchId" := NullOr(dispatchId),
        "requiredWorldDigest" := if requiredWorld.None? then Null else Hash(requiredWorld.value)])
    }
  }

  // The instruction is the compiler's fixed text, the same for every request.
  datatype Request = Request(
    taskId: string, world: Digest, blocks: seq<Block>, candidates: seq<Action>, forbiddenEffects: seq<string>,
    unresolvedDispatches: seq<string>, instruction: string)
  {
    // The constructor's rule that the compiler relies on.
    predicate UniqueBlocks() {
      forall i, j :: 0 <= i < j < |blocks| ==> blocks[i].blockId != blocks[j].blockId
    }
  }

  function BlocksJson(selected: seq<Block>): seq<Value> {
    seq(|selected|, i requires 0 <= i < |selected| => selected[i].ToJson())
  }

  function Payload(r: Request, selected: seq<Block>): Value {
    Obj(map[
      "schemaVersion" := Num(1),
      "kind" := Str("ordivon.compiled-context"),
      "taskId" := Str(r.taskId),
      "worldDigest" := Hash(r.world),
      "blocks" := Arr(BlocksJson(selected)),
      "forbiddenEffects" := Strings(r.forbiddenEffects),
      "unresolvedDispatches" := Strings(r.unresolvedDispatches),
      "allowedActions" := Arr(seq(|r.candidates|, i requires 0 <= i < |r.candidates| => r.candidates[i].ToJson())),
      "instruction" := Str(r.instruction)])
  }

  predicate Fits(r: Request, selected: seq<Block>, budget: int) {
    Estimate(Payload(r, selected)) <= budget
  }

  // ---- sorted(...) ----

  predicate ById(a: Block, b: Block) { Text.Before(a.blockId, b.blockId) }

  // (-priority, estimated tokens, identity)
  predicate ByValue(a: Block, b: Block) {
    || a.priority > b.priority
    || (a.priority == b.priority && a.Tokens() < b.Tokens())
    || (a.priority == b.priority && a.Tokens() == b.Tokens() && Text.Before(a.blockId, b.blockId))
  }

  function Insert(b: Block, s: seq<Block>, lt: (Block, Block) -> bool): seq<Block> {
    if |s| == 0 then [b]
    else if lt(b, s[0]) then [b] + s
    else [s[0]] + Insert(b, s[1..], lt)
  }

  function Sorted(s: seq<Block>, lt: (Block, Block) -> bool): seq<Block> {
    if |s| == 0 then [] else Insert(s[0], Sorted(s[1..], lt), lt)
  }

  ghost predicate StrictOrder(lt: (Block, Block) -> bool) {
    && (forall a :: !lt(a, a))
    && (forall a, b, c :: lt(a, b) && lt(b, c) ==> lt(a, c))
    && (forall a: Block, b: Block :: a.blockId != b.blockId ==> lt(a, b) || lt(b, a))
  }

  lemma OrdersAreStrict()
    ensures StrictOrder(ById) && StrictOrder(ByValue)
  {
    forall a: Block
      ensures !ById(a, a) && !ByValue(a, a)
    {
      Text.BeforeIrreflexive(a.blockId);
    }
    forall a: Block, b: Block, c: Block
      ensures ById(a, b) && ById(b, c) ==> ById(a, c)
      ensures ByValue(a, b) && ByValue(b, c) ==> ByValue(a, c)
    {
      if Text.Before(a.blockId, b.blockId) && Text.Before(b.blockId, c.blockId) {
        Text.BeforeTransitive(a.blockId, b.blockId, c.blockId);
      }
    }
    forall a: Block, b: Block | a.blockId != b.blockId
      ensures ById(a, b) || ById(b, a)
      ensures ByValue(a, b) || ByValue(b, a)
    {
      Text.BeforeTotal(a.blockId, b.blockId);
    }
  }

  ghost predicate DistinctIds(s: seq<Block>) {
    forall i, j :: 0 <= i < j < |s| ==> s[i].blockId != s[j].blockId
  }

  lemma {:induction false} InsertMembers(b: Block, s: seq<Block>, lt: (Block, Block) -> bool)
    ensures forall x :: x in Insert(b, s, lt) <==> x == b || x in s
  {
    if |s| > 0 && !lt(b, s[0]) {
      InsertMembers(b, s[1..], lt);
      assert s == [s[0]] + s[1..];
    }
  }

  lemma {:induction false} InsertSorts(b: Block, s: seq<Block>, lt: (Block, Block) -> bool)
    requires StrictOrder(lt) && Ascending(s, lt) && forall x :: x in s ==> x.blockId != b.blockId
    ensures Ascending(Insert(b, s, lt), lt)
  {
    if |s| == 0 {
    } else if lt(b, s[0]) {
      FrontAscends(b, s, lt);
    } else {
      assert s[0] in s && lt(s[0], b);
      assert Ascending(s[1..], lt);
      InsertSorts(b, s[1..], lt);
      InsertMembers(b, s[1..], lt);
      ConsAscends(s[0], Insert(b, s[1..], lt), lt);
    }
  }

  lemma FrontAscends(b: Block, s: seq<Block>, lt: (Block, Block) -> bool)
    requires StrictOrder(lt) && Ascending(s, lt) && |s| > 0 && lt(b, s[0])
    ensures Ascending([b] + s, lt)
  {
    forall x | x in s
      ensures lt(b, x)
    {
      var j :| 0 <= j < |s| && s[j] == x;
      assert j == 0 || lt(s[0], s[j]);
    }
    ConsAscends(b, s, lt);
  }

  lemma ConsAscends(b: Block, s: seq<Block>, lt: (Block, Block) -> bool)
    requires Ascending(s, lt) && forall x :: x in s ==> lt(b, x)
    ensures Ascending([b] + s, lt)
  {
    forall i, j | 0 <= i < j < |[b] + s|
      ensures lt(([b] + s)[i], ([b] + s)[j])
    {
      if i == 0 {
        assert s[j - 1] in s;
      }
    }
  }

  lemma {:induction false} SortedSorts(s: seq<Block>, lt: (Block, Block) -> bool)
    requires StrictOrder(lt) && DistinctIds(s)
    ensures Ascending(Sorted(s, lt), lt) && forall x :: x in Sorted(s, lt) <==> x in s
  {
    if |s| > 0 {
      SortedSorts(s[1..], lt);
      assert s == [s[0]] + s[1..];
      InsertMembers(s[0], Sorted(s[1..], lt), lt);
      forall x | x in Sorted(s[1..], lt)
        ensures x.blockId != s[0].blockId
      {
        var i :| 0 <= i < |s| - 1 && s[1..][i] == x;
        assert s[i + 1] == x;
      }
      InsertSorts(s[0], Sorted(s[1..], lt), lt);
    }
  }

  lemma FirstSame(s: seq<Block>, t: seq<Block>, lt: (Block, Block) -> bool)
    requires StrictOrder(lt) && Ascending(s, lt) && Ascending(t, lt) && |s| > 0 && |t| > 0
    requires forall x :: x in s <==> x in t
    ensures s[0] == t[0]
  {
    assert s[0] in t && t[0] in s;
    var i :| 0 <= i < |t| && t[i] == s[0];
    var j :| 0 <= j < |s| && s[j] == t[0];
    NotBoth(lt, s[0], t[0]);
  }

  lemma NotBoth(lt: (Block, Block) -> bool, a: Block, b: Block)
    requires StrictOrder(lt)
    ensures !(lt(a, b) && lt(b, a))
  {
    assert lt(a, b) && lt(b, a) ==> lt(a, a);
  }

  lemma TailMembers(s: seq<Block>, lt: (Block, Block) -> bool)
    requires StrictOrder(lt) && Ascending(s, lt) && |s| > 0
    ensures forall x :: x in s[1..] <==> x in s && x != s[0]
    ensures Ascending(s[1..], lt)
  {
    assert s == [s[0]] + s[1..];
    forall x | x in s[1..]
      ensures x != s[0]
    {
      var i :| 0 <= i < |s| - 1 && s[1..][i] == x;
      assert lt(s[0], s[i + 1]);
    }
  }

  // There is one ascending arrangement of given blocks.
  lemma {:induction false} AscendingUnique(s: seq<Block>, t: seq<Block>, lt: (Block, Block) -> bool)
    requires StrictOrder(lt) && Ascending(s, lt) && Ascending(t, lt) && forall x :: x in s <==> x in t
    ensures s == t
  {
    if |s| > 0 && |t| > 0 {
      FirstSame(s, t, lt);
      TailMembers(s, lt);
      TailMembers(t, lt);
      AscendingUnique(s[1..], t[1..], lt);
      assert s == [s[0]] + s[1..] && t == [t[0]] + t[1..];
    } else if |s| > 0 {
      FirstIsMember(s);
    } else if |t| > 0 {
      FirstIsMember(t);
    }
  }

  // ---- The greedy selection ----

  function Required(blocks: seq<Block>): seq<Block> {
    if |blocks| == 0 then []
    else if blocks[0].required then [blocks[0]] + Required(blocks[1..])
    else Required(blocks[1..])
  }

  function Optional(blocks: seq<Block>): seq<Block> {
    if |blocks| == 0 then []
    else if blocks[0].required then Optional(blocks[1..])
    else [blocks[0]] + Optional(blocks[1..])
  }

  lemma {:induction false} SplitBlocks(blocks: seq<Block>)
    ensures forall b :: b in Required(blocks) <==> b in blocks && b.required
    ensures forall b :: b in Optional(blocks) <==> b in blocks && !b.required
  {
    if |blocks| > 0 {
      SplitBlocks(blocks[1..]);
      assert blocks == [blocks[0]] + blocks[1..];
    }
  }

  lemma {:induction false} SplitDistinct(blocks: seq<Block>)
    requires DistinctIds(blocks)
    ensures DistinctIds(Required(blocks)) && DistinctIds(Optional(blocks))
  {
    if |blocks| > 0 {
      SplitDistinct(blocks[1..]);
      SplitBlocks(blocks[1..]);
      assert forall b :: b in Required(blocks[1..]) || b in Optional(blocks[1..]) ==> b in blocks[1..];
      assert forall b :: b in blocks[1..] ==> b.blockId != blocks[0].blockId;
    }
  }

  // One decision after another: a block joins when the whole payload still fits.
  function Chosen(r: Request, kept: seq<Block>, rest: seq<Block>, budget: int): seq<Block>
    decreases |rest|
  {
    if |rest| == 0 then kept
    else Chosen(r, if Fits(r, kept + [rest[0]], budget) then kept + [rest[0]] else kept, rest[1..], budget)
  }

  function LeftOut(r: Request, kept: seq<Block>, rest: seq<Block>, budget: int): seq<Block>
    decreases |rest|
  {
    if |rest| == 0 then []
    else if Fits(r, kept + [rest[0]], budget) then LeftOut(r, kept + [rest[0]], rest[1..], budget)
    else [rest[0]] + LeftOut(r, kept, rest[1..], budget)
  }

  datatype Selection = Selection(selected: seq<Block>, omitted: seq<Block>)

  function Select(r: Request, budget: int): Result<Selection, HostError> {
    if budget < 1 then Err(ValueError)
    else
      var required := Sorted(Required(r.blocks), ById);
      if !Fits(r, required, budget) then Err(ContextCompileError)
      else
        var optional := Sorted(Optional(r.blocks), ByValue);
        Ok(Selection(Chosen(r, required, optional, budget), LeftOut(r, required, optional, budget)))
  }

  // ---- Length of a payload ----

  lemma BlocksSnoc(s: seq<Block>, b: Block)
    ensures BlocksJson(s + [b]) == BlocksJson(s) + [b.ToJson()]
  {
    hide Block.ToJson;
  }

  lemma BlocksPrefix(s: seq<Block>, t: seq<Block>)
    requires s <= t
    ensures BlocksJson(s) <= BlocksJson(t)
  {
    hide Block.ToJson;
  }

  // Payloads over one request differ by the length of their block arrays only.
  lemma PayloadLength(r: Request, s: seq<Block>, t: seq<Block>)
    ensures EncodedLength(Payload(r, t)) - EncodedLength(Arr(BlocksJson(t))) ==
            EncodedLength(Payload(r, s)) - EncodedLength(Arr(BlocksJson(s)))
  {
    hide EncodedLength, BlocksJson, Action.ToJson, Strings;
    var f := Payload(r, s).fields;
    assert f["blocks"] == Arr(BlocksJson(s));
    assert Payload(r, t) == Obj(f["blocks" := Arr(BlocksJson(t))]);
    FieldUpdateLength(f, "blocks", Arr(BlocksJson(t)));
  }

  // Adding a block to a longer selection never makes the payload shorter.
  lemma PayloadGrows(r: Request, s: seq<Block>, t: seq<Block>, b: Block)
    requires s <= t
    ensures EncodedLength(Payload(r, s + [b])) <= EncodedLength(Payload(r, t + [b]))
  {
    hide EncodedLength, BlocksJson, Payload, Block.ToJson;
    PayloadLength(r, s + [b], t + [b]);
    BlocksSnoc(s, b);
    BlocksSnoc(t, b);
    BlocksPrefix(s, t);
    ArrayAppend(BlocksJson(s), b.ToJson());
    ArrayAppend(BlocksJson(t), b.ToJson());
    ArrayPrefix(BlocksJson(s), BlocksJson(t));
  }

  lemma StillTooLong(r: Request, s: seq<Block>, t: seq<Block>, b: Block, budget: int)
    requires s <= t && !Fits(r, s + [b], budget)
    ensures !Fits(r, t + [b], budget)
  {
    hide EncodedLength, Payload;
    PayloadGrows(r, s, t, b);
  }

  lemma {:induction false} ChosenExtends(r: Request, kept: seq<Block>, rest: seq<Block>, budget: int)
    ensures kept <= Chosen(r, kept, rest, budget)
    ensures Fits(r, kept, budget) ==> Fits(r, Chosen(r, kept, rest, budget), budget)
    ensures forall b :: b in Chosen(r, kept, rest, budget) || b in LeftOut(r, kept, rest, budget) <==> b in kept || b in rest
    decreases |rest|
  {
    hide Fits;
    if |rest| > 0 {
      assert rest == [rest[0]] + rest[1..];
      ChosenExtends(r, if Fits(r, kept + [rest[0]], budget) then kept + [rest[0]] else kept, rest[1..], budget);
    }
  }

  // Nothing is both chosen and left out.
  lemma {:induction false} ChosenApart(r: Request, kept: seq<Block>, rest: seq<Block>, budget: int)
    requires DistinctIds(kept + rest)
    ensures DistinctIds(Chosen(r, kept, rest, budget) + LeftOut(r, kept, rest, budget))
    decreases |rest|
  {
    hide Fits;
    if |rest| == 0 {
      assert kept + [] == kept && kept + rest == kept;
    } else if Fits(r, kept + [rest[0]], budget) {
      assert (kept + [rest[0]]) + rest[1..] == kept + rest;
      ChosenApart(r, kept + [rest[0]], rest[1..], budget);
    } else {
      assert kept + rest == kept + [rest[0]] + rest[1..];
      DropMiddle(kept, rest[0], rest[1..]);
      ChosenApart(r, kept, rest[1..], budget);
      ChosenExtends(r, kept, rest[1..], budget);
      AddMiddle(kept, rest[0], rest[1..], Chosen(r, kept, rest[1..], budget), LeftOut(r, kept, rest[1..], budget));
    }
  }

  lemma DropMiddle(s: seq<Block>, b: Block, t: seq<Block>)
    requires DistinctIds(s + [b] + t)
    ensures DistinctIds(s + t)
    ensures forall x :: x in s + t ==> x.blockId != b.blockId
  {
    var all := s + [b] + t;
    assert forall i :: 0 <= i < |s| ==> all[i] == s[i];
    assert all[|s|] == b;
    assert forall i :: 0 <= i < |t| ==> all[|s| + 1 + i] == t[i];
    forall i, j | 0 <= i < j < |s + t|
      ensures (s + t)[i].blockId != (s + t)[j].blockId
    {
      var i', j' := if i < |s| then i else i + 1, if j < |s| then j else j + 1;
      assert all[i'] == (s + t)[i] && all[j'] == (s + t)[j];
    }
  }

  lemma AddMiddle(kept: seq<Block>, b: Block, rest: seq<Block>, chosen: seq<Block>, left: seq<Block>)
    requires DistinctIds(chosen + left)
    requires forall x :: x in chosen || x in left <==> x in kept || x in rest
    requires forall x :: x in kept + rest ==> x.blockId != b.blockId
    ensures DistinctIds(chosen + ([b] + left))
  {
    var all, more := chosen + left, chosen + ([b] + left);
    forall x | x in all
      ensures x.blockId != b.blockId
    {
      assert x in kept + rest;
    }
    forall i, j | 0 <= i < j < |more|
      ensures more[i].blockId != more[j].blockId
    {
      if i == |chosen| {
        assert more[j] == all[j - 1] && all[j - 1] in all;
      } else if j == |chosen| {
        assert more[i] == all[i] && all[i] in all;
      } else {
        assert more[i] == all[if i < |chosen| then i else i - 1] && more[j] == all[if j < |chosen| then j else j - 1];
      }
    }
  }

  lemma AscendingDistinct(s: seq<Block>, t: seq<Block>)
    requires StrictOrder(ById) && StrictOrder(ByValue) && Ascending(s, ById) && Ascending(t, ByValue)
    requires forall x, y :: x in s && y in t ==> x.blockId != y.blockId
    requires forall x, y :: x in t && y in t && x.blockId == y.blockId ==> x == y
    ensures DistinctIds(s + t)
  {
    hide ByValue;
    forall i, j | 0 <= i < j < |s + t|
      ensures (s + t)[i].blockId != (s + t)[j].blockId
    {
      if j < |s| {
        assert ById(s[i], s[j]);
        Text.BeforeIrreflexive(s[i].blockId);
      } else if i < |s| {
        assert s[i] in s && t[j - |s|] in t;
      } else {
        assert ByValue(t[i - |s|], t[j - |s|]) && t[i - |s|] in t && t[j - |s|] in t;
      }
    }
  }

  lemma DistinctMembers(blocks: seq<Block>, x: Block, y: Block)
    requires DistinctIds(blocks) && x in blocks && y in blocks && x.blockId == y.blockId
    ensures x == y
  {
    var i, j :| 0 <= i < |blocks| && blocks[i] == x && 0 <= j < |blocks| && blocks[j] == y;
  }

  // No omitted block would fit after the final selection.
  lemma {:induction false} LeftOutNeverFits(r: Request, kept: seq<Block>, rest: seq<Block>, budget: int)
    ensures forall b :: b in LeftOut(r, kept, rest, budget) ==> !Fits(r, Chosen(r, kept, rest, budget) + [b], budget)
    decreases |rest|
  {
    hide Fits;
    if |rest| > 0 {
      var b := rest[0];
      if Fits(r, kept + [b], budget) {
        LeftOutNeverFits(r, kept + [b], rest[1..], budget);
      } else {
        LeftOutNeverFits(r, kept, rest[1..], budget);
        ChosenExtends(r, kept, rest[1..], budget);
        StillTooLong(r, kept, Chosen(r, kept, rest[1..], budget), b, budget);
      }
    }
  }

  // Theorem: a selection keeps every required block, partitions the blocks, stays within
  // the budget, and is maximal; it fails exactly when the required blocks alone do not fit.
  lemma SelectionIsSound(r: Request, budget: int)
    requires r.UniqueBlocks()
    ensures match Select(r, budget)
            case Err(e) => budget < 1 || (e == ContextCompileError && !Fits(r, Sorted(Required(r.blocks), ById), budget))
            case Ok(s) =>
              && (forall b :: b in r.blocks && b.required ==> b in s.selected)
              && (forall b :: b in s.selected || b in s.omitted <==> b in r.blocks)
              && DistinctIds(s.selected + s.omitted)
              && Fits(r, s.selected, budget)
              && (forall b :: b in s.omitted ==> !b.required && !Fits(r, s.selected + [b], budget))
  {
    hide Fits, ById, ByValue;
    if Select(r, budget).Ok? {
      OrdersAreStrict();
      SplitDistinct(r.blocks);
      SplitBlocks(r.blocks);
      var required, optional := Sorted(Required(r.blocks), ById), Sorted(Optional(r.blocks), ByValue);
      SortedSorts(Required(r.blocks), ById);
      SortedSorts(Optional(r.blocks), ByValue);
      ChosenExtends(r, required, optional, budget);
      LeftOutNeverFits(r, required, optional, budget);
      LeftOutAreOptional(r, required, optional, budget);
      PartsDistinct(r, required, optional);
      ChosenApart(r, required, optional, budget);
    }
  }

  lemma PartsDistinct(r: Request, required: seq<Block>, optional: seq<Block>)
    requires r.UniqueBlocks() && StrictOrder(ById) && StrictOrder(ByValue)
    requires Ascending(required, ById) && Ascending(optional, ByValue)
    requires forall b :: b in required ==> b in r.blocks && b.required
    requires forall b :: b in optional ==> b in r.blocks && !b.required
    ensures DistinctIds(required + optional)
  {
    hide ById, ByValue;
    forall x, y | x in r.blocks && y in r.blocks && x.blockId == y.blockId
      ensures x == y
    {
      DistinctMembers(r.blocks, x, y);
    }
    AscendingDistinct(required, optional);
  }

  lemma {:induction false} LeftOutAreOptional(r: Request, kept: seq<Block>, rest: seq<Block>, budget: int)
    ensures forall b :: b in LeftOut(r, kept, rest, budget) ==> b in rest
    decreases |rest|
  {
    hide Fits;
    if |rest| > 0 {
      LeftOutAreOptional(r, kept + [rest[0]], rest[1..], budget);
      LeftOutAreOptional(r, kept, rest[1..], budget);
    }
  }

  // ---- Who comes first ----

  // Higher priority, then fewer tokens, then the smaller identity.
  predicate Outranks(x: Block, y: Block) {
    if x.priority != y.priority then x.priority > y.priority
    else if x.Tokens() != y.Tokens() then x.Tokens() < y.Tokens()
    else Text.Before(x.blockId, y.blockId)
  }

  // The first k blocks of the selection are what was kept and the chosen blocks that come
  // before b, and b did not fit with them.
  ghost predicate PassedOver(r: Request, selected: seq<Block>, kept: nat, b: Block, k: nat, budget: int) {
    && kept <= k <= |selected|
    && (forall i :: kept <= i < k ==> Outranks(selected[i], b))
    && (forall i :: k <= i < |selected| ==> Outranks(b, selected[i]))
    && Estimate(Payload(r, selected[..k] + [b])) > budget
  }

  // Of a selection that keeps the first n blocks: the others stand in order and fitted one
  // after the other; an omitted block was passed over at its turn.
  ghost predicate Greedy(r: Request, n: nat, selected: seq<Block>, omitted: seq<Block>, budget: int) {
    && n <= |selected|
    && (forall i, j :: n <= i < j < |selected| ==> Outranks(selected[i], selected[j]))
    && (forall i, j :: 0 <= i < j < |omitted| ==> Outranks(omitted[i], omitted[j]))
    && (forall b :: b in omitted ==> exists k :: PassedOver(r, selected, n, b, k, budget))
  }

  lemma {:induction false} ChosenIsGreedy(r: Request, kept: seq<Block>, rest: seq<Block>, budget: int)
    requires Ascending(rest, ByValue)
    ensures var c, left := Chosen(r, kept, rest, budget), LeftOut(r, kept, rest, budget);
            && kept <= c && (forall i :: |kept| <= i < |c| ==> c[i] in rest)
            && (forall b :: b in left ==> b in rest)
            && Greedy(r, |kept|, c, left, budget)
    decreases |rest|
  {
    hide EncodedLength, Payload;
    if |rest| > 0 {
      var b := rest[0];
      assert forall x :: x in rest[1..] ==> x in rest && ByValue(b, x) by {
        forall x | x in rest[1..]
          ensures x in rest && ByValue(b, x)
        {
          var i :| 0 <= i < |rest| - 1 && rest[1..][i] == x;
          assert rest[i + 1] == x;
        }
      }
      if Fits(r, kept + [b], budget) {
        ChosenIsGreedy(r, kept + [b], rest[1..], budget);
        KeptOne(r, kept, b, rest[1..], Chosen(r, kept + [b], rest[1..], budget), LeftOut(r, kept + [b], rest[1..], budget), budget);
      } else {
        ChosenIsGreedy(r, kept, rest[1..], budget);
        OmitOne(r, kept, b, rest[1..], Chosen(r, kept, rest[1..], budget), LeftOut(r, kept, rest[1..], budget), budget);
      }
    }
  }

  lemma KeptOne(r: Request, kept: seq<Block>, b: Block, rest: seq<Block>, c: seq<Block>, left: seq<Block>, budget: int)
    requires kept + [b] <= c && Greedy(r, |kept| + 1, c, left, budget)
    requires forall i :: |kept| + 1 <= i < |c| ==> c[i] in rest
    requires forall x :: x in left ==> x in rest
    requires forall x :: x in rest ==> ByValue(b, x)
    ensures Greedy(r, |kept|, c, left, budget)
  {
    hide EncodedLength, Payload;
    assert c[|kept|] == (kept + [b])[|kept|] == b;
    forall x | x in left
      ensures exists k :: PassedOver(r, c, |kept|, x, k, budget)
    {
      var k :| PassedOver(r, c, |kept| + 1, x, k, budget);
      assert PassedOver(r, c, |kept|, x, k, budget);
    }
  }

  lemma OmitOne(r: Request, kept: seq<Block>, b: Block, rest: seq<Block>, c: seq<Block>, left: seq<Block>, budget: int)
    requires kept <= c && Greedy(r, |kept|, c, left, budget) && !Fits(r, kept + [b], budget)
    requires forall i :: |kept| <= i < |c| ==> c[i] in rest
    requires forall x :: x in left ==> x in rest
    requires forall x :: x in rest ==> ByValue(b, x)
    ensures Greedy(r, |kept|, c, [b] + left, budget)
  {
    hide EncodedLength, Payload;
    assert c[..|kept|] == kept;
    assert PassedOver(r, c, |kept|, b, |kept|, budget);
    forall i, j | 0 <= i < j < |[b] + left|
      ensures Outranks(([b] + left)[i], ([b] + left)[j])
    {
      assert ([b] + left)[j] == left[j - 1] && left[j - 1] in left;
    }
  }

  // Theorem: the selection lists the required blocks by identity and then the chosen ones by
  // priority, tokens and identity; and each omitted block was passed over because it did not
  // fit with the required blocks and the chosen blocks that come before it.
  lemma PriorityWins(r: Request, budget: int)
    requires r.UniqueBlocks() && Select(r, budget).Ok?
    ensures var s := Select(r, budget).value;
            exists n :: && Greedy(r, n, s.selected, s.omitted, budget)
                        && (forall i :: 0 <= i < |s.selected| ==> (s.selected[i].required <==> i < n))
                        && (forall i, j :: 0 <= i < j < n ==> Text.Before(s.selected[i].blockId, s.selected[j].blockId))
  {
    hide Fits, ByValue, EncodedLength, Payload;
    OrdersAreStrict();
    SplitDistinct(r.blocks);
    SplitBlocks(r.blocks);
    var required, optional := Sorted(Required(r.blocks), ById), Sorted(Optional(r.blocks), ByValue);
    SortedSorts(Required(r.blocks), ById);
    SortedSorts(Optional(r.blocks), ByValue);
    ChosenIsGreedy(r, required, optional, budget);
    var s := Select(r, budget).value;
    forall i | 0 <= i < |s.selected|
      ensures s.selected[i].required <==> i < |required|
    {
      if i < |required| {
        assert s.selected[i] == required[i] && required[i] in required;
      }
    }
    forall i, j | 0 <= i < j < |required|
      ensures Text.Before(s.selected[i].blockId, s.selected[j].blockId)
    {
      assert ById(required[i], required[j]);
    }
    assert Greedy(r, |required|, s.selected, s.omitted, budget);
  }

  // Tokens are quarters of canonical bytes, rounded up, and never none.
  lemma EstimateRoundsUp(v: Value)
    ensures Estimate(v) >= 1 && 4 * Estimate(v) >= EncodedLength(v)
    ensures Estimate(v) > 1 ==> 4 * (Estimate(v) - 1) < EncodedLength(v)
  {
    hide EncodedLength;
  }

  // Theorem: the order of the input blocks does not matter.
  lemma SelectionIgnoresOrder(r: Request, blocks: seq<Block>, budget: int)
    requires r.UniqueBlocks() && multiset(blocks) == multiset(r.blocks)
    ensures Select(r.(blocks := blocks), budget) == Select(r, budget)
  {
    hide Fits, ById, ByValue, Payload;
    SameMembers(r.blocks, blocks);
    OrdersAreStrict();
    SplitDistinct(r.blocks);
    SplitDistinct(blocks);
    SplitBlocks(r.blocks);
    SplitBlocks(blocks);
    SortedSorts(Required(r.blocks), ById);
    SortedSorts(Required(blocks), ById);
    SortedSorts(Optional(r.blocks), ByValue);
    SortedSorts(Optional(blocks), ByValue);
    AscendingUnique(Sorted(Required(r.blocks), ById), Sorted(Required(blocks), ById), ById);
    AscendingUnique(Sorted(Optional(r.blocks), ByValue), Sorted(Optional(blocks), ByValue), ByValue);
    SameRequest(r, blocks, Sorted(Required(blocks), ById), Sorted(Optional(blocks), ByValue), budget);
    SameFit(r, blocks, Sorted(Required(blocks), ById), budget);
  }

  // A permutation of blocks with distinct identities has the same blocks, still distinct.
  lemma SameMembers(s: seq<Block>, t: seq<Block>)
    requires DistinctIds(s) && multiset(s) == multiset(t)
    ensures DistinctIds(t) && forall b :: b in t <==> b in s
  {
    forall b: Block
      ensures b in t <==> b in s
    {
      assert b in multiset(t) <==> b in multiset(s);
    }
    forall i, j | 0 <= i < j < |t|
      ensures t[i].blockId != t[j].blockId
    {
      if t[i].blockId == t[j].blockId {
        DistinctMembers(s, t[i], t[j]);
        TwiceInBag(t, i, j);
        OnceEach(s, t[i]);
      }
    }
  }

  lemma TwiceInBag(t: seq<Block>, i: nat, j: nat)
    requires i < j < |t| && t[i] == t[j]
    ensures multiset(t)[t[i]] >= 2
  {
    assert t == t[..j] + t[j..];
    assert t[i] in t[..j] && t[j] in t[j..];
    assert multiset(t) == multiset(t[..j]) + multiset(t[j..]);
  }

  lemma {:induction false} OnceEach(s: seq<Block>, b: Block)
    requires DistinctIds(s)
    ensures multiset(s)[b] <= 1
  {
    if |s| > 0 {
      assert s == [s[0]] + s[1..];
      OnceEach(s[1..], b);
      assert multiset(s) == multiset{s[0]} + multiset(s[1..]);
      if b == s[0] {
        assert b !in s[1..];
      }
    }
  }

  lemma SameFit(r: Request, blocks: seq<Block>, kept: seq<Block>, budget: int)
    ensures Fits(r.(blocks := blocks), kept, budget) == Fits(r, kept, budget)
  {
    hide EncodedLength, BlocksJson;
    assert Payload(r.(blocks := blocks), kept) == Payload(r, kept);
  }

  // The selection looks at the request's blocks only through the sorted lists.
  lemma {:induction false} SameRequest(r: Request, blocks: seq<Block>, kept: seq<Block>, rest: seq<Block>, budget: int)
    ensures Chosen(r.(blocks := blocks), kept, rest, budget) == Chosen(r, kept, rest, budget)
    ensures LeftOut(r.(blocks := blocks), kept, rest, budget) == LeftOut(r, kept, rest, budget)
    decreases |rest|
  {
    hide Fits;
    if |rest| > 0 {
      SameRequest(r, blocks, kept + [rest[0]], rest[1..], budget);
      SameRequest(r, blocks, kept, rest[1..], budget);
      SameFit(r, blocks, kept + [rest[0]], budget);
    }
  }

  // What a compiled payload says of its request and of each block selected.
  lemma PayloadHolds(r: Request, selected: seq<Block>)
    ensures var f := Payload(r, selected).fields;
            && f["taskId"] == Str(r.taskId) && f["worldDigest"] == Hash(r.world) && f["instruction"] == Str(r.instruction)
            && f["forbiddenEffects"] == Strings(r.forbiddenEffects)
            && f["unresolvedDispatches"] == Strings(r.unresolvedDispatches)
            && f["blocks"].Arr? && |f["blocks"].items| == |selected|
            && f["allowedActions"].Arr? && |f["allowedActions"].items| == |r.candidates|
    ensures forall i :: 0 <= i < |selected| ==>
              var item := Payload(r, selected).fields["blocks"].items[i];
              && item.Obj?
              && item.fields["blockId"] == Str(selected[i].blockId) && item.fields["priority"] == Num(selected[i].priority)
              && item.fields["required"] == Bool(selected[i].required) && item.fields["payload"] == selected[i].payload
              && item.fields["payloadDigest"] == Hash(Digest(selected[i].payload))
              && item.fields["sourceDigest"] == Hash(selected[i].sourceDigest)
              && item.fields["estimatedTokens"] == Num(Estimate(selected[i].payload))
    ensures forall i :: 0 <= i < |r.candidates| ==>
              Payload(r, selected).fields["allowedActions"].items[i] == r.candidates[i].ToJson()
  {
    hide EncodedLength, Strings;
  }

  // ---- The compiled context and its envelope ----

  datatype Manifest = Manifest(budget: int, estimated: int, selectedIds: seq<string>, omittedIds: seq<string>)
  {
    function ToJson(): Value {
      Obj(map[
        "tokenBudget" := Num(budget),
        "estimatedTokens" := Num(estimated),
        "selectedBlockIds" := Strings(selectedIds),
        "omittedBlockIds" := Strings(omittedIds)])
    }

    predicate Valid() {
      && 1 <= estimated <= budget
      && (forall i, j :: 0 <= i < j < |selectedIds| ==> selectedIds[i] != selectedIds[j])
      && (forall i, j :: 0 <= i < j < |omittedIds| ==> omittedIds[i] != omittedIds[j])
      && (forall i :: 0 <= i < |selectedIds| ==> selectedIds[i] !in omittedIds)
    }
  }

  const MANIFEST_FIELDS := {"tokenBudget", "estimatedTokens", "selectedBlockIds", "omittedBlockIds"}

  function ManifestFromJson(v: Value): Option<Manifest> {
    if !v.Obj? || v.fields.Keys != MANIFEST_FIELDS then None
    else
      var f := v.fields;
      if !f["tokenBudget"].Num? || !f["estimatedTokens"].Num? then None
      else if !IsStrings(f["selectedBlockIds"]) || !IsStrings(f["omittedBlockIds"]) then None
      else
        var m := Manifest(f["tokenBudget"].n, f["estimatedTokens"].n, AsStrings(f["selectedBlockIds"]),
                          AsStrings(f["omittedBlockIds"]));
        if m.Valid() then Some(m) else None
  }

  lemma ManifestRoundTrip(m: Manifest)
    ensures ManifestFromJson(m.ToJson()) == if m.Valid() then Some(m) else None
  {
    var f := m.ToJson().fields;
    assert f.Keys == MANIFEST_FIELDS;
    StringsRoundTrip(m.selectedIds);
    StringsRoundTrip(m.omittedIds);
    assert f["tokenBudget"] == Num(m.budget) && f["estimatedTokens"] == Num(m.estimated);
    assert f["selectedBlockIds"] == Strings(m.selectedIds) && f["omittedBlockIds"] == Strings(m.omittedIds);
  }

  datatype CompiledContext = CompiledContext(payload: Value, manifest: Manifest)

  const ENVELOPE_KIND := "ordivon.compiled-context-envelope"
  const ENVELOPE_FIELDS := {"schemaVersion", "kind", "digest", "byteLength", "manifest", "payload"}

  function EnvelopeJson(c: CompiledContext): Value {
    Obj(map[
      "schemaVersion" := Num(1),
      "kind" := Str(ENVELOPE_KIND),
      "digest" := Hash(Digest(c.payload)),
      "byteLength" := Num(EncodedLength(c.payload)),
      "manifest" := c.manifest.ToJson(),
      "payload" := c.payload])
  }

  // The identities of a payload's blocks, if each block has one.
  function BlockIds(payload: Value): Option<seq<string>> {
    if !payload.Obj? || "blocks" !in payload.fields || !payload.fields["blocks"].Arr? then None
    else
      var items := payload.fields["blocks"].items;
      if forall i :: 0 <= i < |items| ==>
           items[i].Obj? && "blockId" in items[i].fields && items[i].fields["blockId"].Str?
      then Some(seq(|items|, i requires 0 <= i < |items| && items[i].Obj? && "blockId" in items[i].fields
                                        && items[i].fields["blockId"].Str? => items[i].fields["blockId"].s))
      else None
  }

  function EnvelopeFromJson(v: Value): Option<CompiledContext> {
    if !v.Obj? || v.fields.Keys != ENVELOPE_FIELDS then None
    else
      var f := v.fields;
      if f["schemaVersion"] != Num(1) || f["kind"] != Str(ENVELOPE_KIND) then None
      else if !f["payload"].Obj? then None
      else
        match ManifestFromJson(f["manifest"])
        case None => None
        case Some(m) =>
          if f["digest"] != Hash(Digest(f["payload"])) || f["byteLength"] != Num(EncodedLength(f["payload"])) then None
          else if Estimate(f["payload"]) != m.estimated then None
          else if BlockIds(f["payload"]) != Some(m.selectedIds) then None
          else Some(CompiledContext(f["payload"], m))
  }

  // Theorem: a text is an envelope of a context exactly when it is the one the context writes,
  // and the context is of one piece: the estimate is that of the payload, the selected
  // identities are those of its blocks, no identity occurs twice, and the budget is kept.
  lemma EnvelopeExactly(v: Value, c: CompiledContext)
    ensures EnvelopeFromJson(v) == Some(c) <==>
              && v == EnvelopeJson(c)
              && c.payload.Obj?
              && 1 <= c.manifest.estimated <= c.manifest.budget
              && c.manifest.estimated == Estimate(c.payload)
              && BlockIds(c.payload) == Some(c.manifest.selectedIds)
              && Distinct(c.manifest.selectedIds + c.manifest.omittedIds)
  {
    hide EncodedLength, Estimate, BlockIds, Manifest.Valid;
    ValidExactly(c.manifest);
    ManifestRoundTrip(c.manifest);
    if EnvelopeFromJson(v) == Some(c) {
      ManifestIsWritten(v.fields["manifest"]);
      assert v.fields == EnvelopeJson(c).fields;
    }
  }

  ghost predicate Distinct(ids: seq<string>) {
    forall i, j :: 0 <= i < j < |ids| ==> ids[i] != ids[j]
  }

  lemma ValidExactly(m: Manifest)
    ensures m.Valid() <==> 1 <= m.estimated <= m.budget && Distinct(m.selectedIds + m.omittedIds)
  {
    var all := m.selectedIds + m.omittedIds;
    if m.Valid() {
      forall i, j | 0 <= i < j < |all|
        ensures all[i] != all[j]
      {
        if i < |m.selectedIds| <= j {
          assert all[j] == m.omittedIds[j - |m.selectedIds|] && all[j] in m.omittedIds;
        }
      }
    }
    if Distinct(all) {
      assert forall i :: 0 <= i < |m.selectedIds| ==> all[i] == m.selectedIds[i];
      assert forall i :: 0 <= i < |m.omittedIds| ==> all[|m.selectedIds| + i] == m.omittedIds[i];
    }
  }

  lemma ManifestIsWritten(v: Value)
    requires ManifestFromJson(v).Some?
    ensures ManifestFromJson(v).value.Valid() && ManifestFromJson(v).value.ToJson() == v
  {
    hide Manifest.Valid;
    StringsExact(v.fields["selectedBlockIds"]);
    StringsExact(v.fields["omittedBlockIds"]);
    assert ManifestFromJson(v).value.ToJson().fields == v.fields;
  }

  function Ids(blocks: seq<Block>): seq<string> {
    seq(|blocks|, i requires 0 <= i < |blocks| => blocks[i].blockId)
  }

  // compile
  method Compile(r: Request, budget: int) returns (c: Result<CompiledContext, HostError>)
    ensures match Select(r, budget)
            case Err(e) => c == Err(e)
            case Ok(s) =>
              c == Ok(CompiledContext(Payload(r, s.selected),
                                      Manifest(budget, Estimate(Payload(r, s.selected)), Ids(s.selected), Ids(s.omitted))))
  {
    hide EncodedLength, Payload;
    if budget < 1 {
      return Err(ValueError);
    }
    var required := Sorted(Required(r.blocks), ById);
    var optional := Sorted(Optional(r.blocks), ByValue);
    var selected := required;
    if Estimate(Payload(r, selected)) > budget {
      return Err(ContextCompileError);
    }
    var omitted: seq<Block> := [];
    var i := 0;
    assert optional[0..] == optional;
    while i < |optional|
      invariant 0 <= i <= |optional|
      invariant Chosen(r, required, optional, budget) == Chosen(r, selected, optional[i..], budget)
      invariant LeftOut(r, required, optional, budget) == omitted + LeftOut(r, selected, optional[i..], budget)
    {
      var block := optional[i];
      assert optional[i..][0] == block && optional[i..][1..] == optional[i + 1..];
      var candidate := selected + [block];
      if Estimate(Payload(r, candidate)) <= budget {
        selected := candidate;
      } else {
        omitted := omitted + [block];
      }
      i := i + 1;
    }
    assert optional[i..] == [] && omitted + [] == omitted;
    assert Select(r, budget) == Ok(Selection(selected, omitted));
    var payload := Payload(r, selected);
    return Ok(CompiledContext(payload, Manifest(budget, Estimate(payload), Ids(selected), Ids(omitted))));
  }

  lemma PayloadIds(r: Request, selected: seq<Block>)
    ensures Payload(r, selected).Obj? && BlockIds(Payload(r, selected)) == Some(Ids(selected))
  {
    var items := BlocksJson(selected);
    assert Payload(r, selected).fields["blocks"] == Arr(items);
    forall i | 0 <= i < |items|
      ensures items[i].Obj? && "blockId" in items[i].fields && items[i].fields["blockId"] == Str(selected[i].blockId)
    {
      assert items[i] == selected[i].ToJson();
      assert selected[i].ToJson().fields["blockId"] == Str(selected[i].blockId);
    }
    assert BlockIds(Payload(r, selected)).Some?;
    assert BlockIds(Payload(r, selected)).value == Ids(selected);
  }

  lemma SelectionIds(s: Selection)
    requires DistinctIds(s.selected + s.omitted)
    ensures forall i, j :: 0 <= i < j < |s.selected| ==> Ids(s.selected)[i] != Ids(s.selected)[j]
    ensures forall i, j :: 0 <= i < j < |s.omitted| ==> Ids(s.omitted)[i] != Ids(s.omitted)[j]
    ensures forall i :: 0 <= i < |s.selected| ==> Ids(s.selected)[i] !in Ids(s.omitted)
  {
    var all := s.selected + s.omitted;
    assert forall i :: 0 <= i < |s.selected| ==> all[i] == s.selected[i];
    assert forall i :: 0 <= i < |s.omitted| ==> all[|s.selected| + i] == s.omitted[i];
  }

  lemma EnvelopeReads(c: CompiledContext)
    requires c.payload.Obj? && c.manifest.Valid() && Estimate(c.payload) == c.manifest.estimated
    requires BlockIds(c.payload) == Some(c.manifest.selectedIds)
    ensures EnvelopeFromJson(EnvelopeJson(c)) == Some(c)
  {
    hide EncodedLength, BlockIds, Manifest.ToJson, Manifest.Valid, ManifestFromJson;
    var f := EnvelopeJson(c).fields;
    assert f.Keys == ENVELOPE_FIELDS;
    assert f["schemaVersion"] == Num(1) && f["kind"] == Str(ENVELOPE_KIND);
    assert f["digest"] == Hash(Digest(c.payload)) && f["byteLength"] == Num(EncodedLength(c.payload));
    assert f["manifest"] == c.manifest.ToJson() && f["payload"] == c.payload;
    ManifestRoundTrip(c.manifest);
  }

  // Theorem: the envelope of every compiled context decodes back to itself.
  lemma CompiledRoundTrip(r: Request, budget: int)
    requires r.UniqueBlocks() && Select(r, budget).Ok?
    ensures var s := Select(r, budget).value;
            var c := CompiledContext(Payload(r, s.selected),
                                     Manifest(budget, Estimate(Payload(r, s.selected)), Ids(s.selected), Ids(s.omitted)));
            EnvelopeFromJson(EnvelopeJson(c)) == Some(c)
  {
    hide EncodedLength, Payload, Select, EnvelopeFromJson, EnvelopeJson, BlockIds;
    SelectionIsSound(r, budget);
    var s := Select(r, budget).value;
    SelectionIds(s);
    PayloadIds(r, s.selected);
    assert forall i, j :: 0 <= i < j < |Ids(s.selected)| ==> Ids(s.selected)[i] != Ids(s.selected)[j];
    EnvelopeReads(CompiledContext(Payload(r, s.selected),
                                  Manifest(budget, Estimate(Payload(r, s.selected)), Ids(s.selected), Ids(s.omitted))));
  }
}
