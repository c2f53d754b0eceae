// The message board: posting, paging through it while others post, and checking it.
module Board {
  import opened Base
  import opened Json
  import opened Domain
  import opened Tables
  import opened Transactions
  import opened JournalInvariants
  import opened Storage
  import opened Evolution
  import opened HostStorage
  import opened Continuity
  import opened BoardPages
  import T = Transactions
  import Text

  const BOARD_WIRE_KIND := "ordivon.host-board-message"
  const BOARD_TRUTH_ROLE := "coordination-message-not-domain-truth"
  const MESSAGE_FIELDS := {
    "schemaVersion", "kind", "clientMessageId", "authorLabel", "messageKind", "topic", "message",
    "replyToClientMessageId", "truthRole"}

  function KindName(k: MessageKind): string {
    match k
    case Note => "note"
    case Question => "question"
    case Proposal => "proposal"
    case Warning => "warning"
    case Reply => "reply"
  }

  // What a caller posts.
  datatype Message = Message(
    clientMessageId: string, author: string, kind: MessageKind, topic: Option<string>, text: string, replyTo: Option<string>)

  function MessageJson(m: Message): Value {
    Obj(map[
      "schemaVersion" := Num(1),
      "kind" := Str(BOARD_WIRE_KIND),
      "clientMessageId" := Str(m.clientMessageId),
      "authorLabel" := Str(m.author),
      "messageKind" := Str(KindName(m.kind)),
      "topic" := NullOr(m.topic),
      "message" := Str(m.text),
      "replyToClientMessageId" := NullOr(m.replyTo),
      "truthRole" := Str(BOARD_TRUTH_ROLE)])
  }

  function RowMessage(row: BoardRow, text: string): Message {
    Message(row.clientMessageId, row.author, row.kind, row.topic, text, row.replyTo)
  }

  // _read: the row against its immutable object.
  function ReadMessage(store: Store, row: BoardRow): Result<string, HostError> {
    if row.messageDigest !in store.db.objects then Err(ValueError)
    else if store.db.objects[row.messageDigest].kind != BOARD_OBJECT_KIND then Err(ValueError)
    else if row.messageDigest !in store.cas then Err(ObjectMissing)
    else
      match Open(row.messageDigest)
      case None => Err(ObjectCorrupt)
      case Some(o) =>
        if o.kind != BOARD_OBJECT_KIND then Err(ObjectCorrupt)
        else if !o.payload.Obj? || o.payload.fields.Keys != MESSAGE_FIELDS then Err(ValueError)
        else if !o.payload.fields["message"].Str? then Err(ValueError)
        else if o.payload != MessageJson(RowMessage(row, o.payload.fields["message"].s)) then Err(ValueError)
        else Ok(o.payload.fields["message"].s)
  }

  predicate Readable(store: Store, row: BoardRow) {
    ReadMessage(store, row).Ok?
  }

  lemma ReadStable(before: Store, after: Store, row: BoardRow)
    requires Evolves(before, after) && ReadMessage(before, row).Ok?
    ensures ReadMessage(after, row) == ReadMessage(before, row)
  {
    hide MessageJson;
  }

  lemma MessageReads(store: Store, m: Message, row: BoardRow)
    requires row.messageDigest == Address(BOARD_OBJECT_KIND, MessageJson(m))
    requires RowMessage(row, m.text) == m
    requires row.messageDigest in store.cas && row.messageDigest in store.db.objects
    requires store.db.objects[row.messageDigest].kind == BOARD_OBJECT_KIND
    ensures ReadMessage(store, row) == Ok(m.text)
  {
    hide Open;
    assert Text.IsLabel(BOARD_OBJECT_KIND);
    OpenAddress(BOARD_OBJECT_KIND, MessageJson(m));
    assert MessageJson(m).fields.Keys == MESSAGE_FIELDS;
    assert MessageJson(m).fields["message"] == Str(m.text);
  }

  datatype Page = Page(
    sequences: seq<nat>, texts: seq<string>, messageCount: nat, lastSequence: nat, nextAfter: nat, hasMore: bool)

  // The two marks of a page: the high-water mark as one store had it, and the count, which is
  // the mark again when a topic is given and is otherwise read once more.
  ghost predicate Counts(f: Filter, marked: Store, counted: Store, p: Page) {
    && p.lastSequence == |marked.db.board|
    && marked.db.board <= counted.db.board
    && p.messageCount == (if f.topic.Some? then |marked.db.board| else |counted.db.board|)
  }

  // The count equals the mark if and only if a topic is given or nothing was posted between
  // the two reads.
  lemma CountIsMarkIff(f: Filter, marked: Store, counted: Store, p: Page)
    requires Counts(f, marked, counted, p)
    ensures p.messageCount == p.lastSequence <==> f.topic.Some? || counted.db.board == marked.db.board
  {
    if |counted.db.board| == |marked.db.board| {
      assert counted.db.board == marked.db.board;
    }
  }

  // Where the marks were read: after the call began, one after the other.
  ghost predicate ReadInOrder(start: Store, marked: Store, counted: Store, end: Store) {
    Evolves(start, marked) && Evolves(marked, counted) && Evolves(counted, end)
  }

  // The texts of a selection.
  method ReadAll(storage: Host, sequences: seq<nat>) returns (r: Result<seq<string>, HostError>)
    requires storage.Valid() && forall n :: n in sequences ==> 1 <= n <= |storage.State().db.board|
    modifies storage`cas, storage`others, storage.journal
    ensures storage.OnlyRead()
    ensures r.Ok? ==>
              && |r.value| == |sequences|
              && forall i :: 0 <= i < |sequences| ==> TextAt(storage.State(), sequences[i], r.value[i])
    ensures old(storage.others) == [] && (forall n :: n in sequences ==> Readable(old(storage.State()), old(storage.State()).db.board[n - 1]))
            ==> r.Ok?
  {
    hide StoreInv, ReadMessage, TextAt;
    ghost var start := storage.State();
    EvolvesReflexive(start);
    var texts: seq<string> := [];
    var i := 0;
    while i < |sequences|
      invariant 0 <= i == |texts| <= |sequences|
      invariant storage.OnlyRead()
      invariant forall j :: 0 <= j < i ==> TextAt(storage.State(), sequences[j], texts[j])
    {
      ghost var before := storage.State();
      storage.Yield();
      EvolvesTransitive(start, before, storage.State());
      TextsStable(before, storage.State(), sequences[..i], texts);
      assert sequences[i] in sequences;
      var row := storage.journal.board[sequences[i] - 1];
      var text := ReadMessage(Store(storage.journal.View(), storage.cas), row);
      if text.Err? {
        return Err(text.error);
      }
      TextRead(storage.State(), sequences[i], text.value);
      texts := texts + [text.value];
      i := i + 1;
    }
    return Ok(texts);
  }

  ghost predicate TextAt(store: Store, n: nat, text: string) {
    1 <= n <= |store.db.board| && ReadMessage(store, store.db.board[n - 1]) == Ok(text)
  }

  lemma TextRead(store: Store, n: nat, text: string)
    requires 1 <= n <= |store.db.board| && ReadMessage(store, store.db.board[n - 1]) == Ok(text)
    ensures TextAt(store, n, text)
  {
  }

  lemma TextsStable(before: Store, after: Store, sequences: seq<nat>, texts: seq<string>)
    requires Evolves(before, after) && |texts| == |sequences|
    requires forall j :: 0 <= j < |texts| ==> TextAt(before, sequences[j], texts[j])
    ensures forall j :: 0 <= j < |texts| ==> TextAt(after, sequences[j], texts[j])
  {
    hide Evolves;
    forall j | 0 <= j < |texts|
      ensures TextAt(after, sequences[j], texts[j])
    {
      EvolvesBoard(before, after);
      ReadStable(before, after, before.db.board[sequences[j] - 1]);
    }
  }

  lemma EvolvesBoard(before: Store, after: Store)
    requires Evolves(before, after)
    ensures before.db.board <= after.db.board
  {
  }

  // board_last_sequence
  method LastSequence(storage: Host) returns (n: nat)
    requires storage.Valid()
    modifies storage`cas, storage`others, storage.journal
    ensures storage.OnlyRead() && n == |storage.State().db.board|
  {
    hide StoreInv, Evolves;
    storage.Yield();
    n := |storage.journal.board|;
  }

  predicate ListValid(after: Option<int>, limit: int, f: Filter) {
    && (after.Some? ==> after.value >= 0)
    && 1 <= limit <= 100
    && (f.topic.Some? ==> Text.IsLabel(f.topic.value) && |f.topic.value| <= 256)
    && (f.replyTo.Some? ==> Text.IsLabel(f.replyTo.value) && |f.replyTo.value| <= 256)
  }

  // What a page says about the board, now and for ever: after a cursor, exactly the matching
  // messages up to the next cursor; without one, the latest of them. `hasMore` says whether
  // anything matching through `lastSequence` is still to come.
  ghost predicate PageTells(board: seq<BoardRow>, after: Option<int>, limit: int, f: Filter, p: Page) {
    && p.lastSequence <= |board|
    && |p.sequences| == |p.texts| <= limit
    && match after
       case None =>
         && p.nextAfter <= |board|
         && var all := Selected(board, 0, p.nextAfter, f);
         && p.sequences == (if |all| <= limit then all else all[|all| - limit..])
       case Some(a) =>
         && 0 <= a <= p.nextAfter
         && (p.nextAfter <= |board| || p.nextAfter == a)
         && p.sequences == Selected(board, a, p.nextAfter, f)
         && (p.hasMore <==> p.nextAfter < p.lastSequence && Selected(board, p.nextAfter, p.lastSequence, f) != [])
         && (!p.hasMore ==> p.lastSequence <= p.nextAfter)
  }

  // A page is short only if nothing that stood at the start is left behind its next cursor.
  // Without a cursor nothing older is announced, and under a filter the page reaches the mark.
  ghost predicate PageReaches(stood: nat, after: Option<int>, limit: int, f: Filter, p: Page) {
    && (|p.sequences| < limit ==> p.nextAfter >= stood)
    && (after.None? ==> p.nextAfter >= stood && (p.hasMore <==> p.nextAfter < p.lastSequence))
    && (after.None? && f != EVERYTHING ==> p.nextAfter == p.lastSequence)
  }

  lemma PageStable(board: seq<BoardRow>, longer: seq<BoardRow>, after: Option<int>, limit: int, f: Filter, p: Page)
    requires board <= longer && PageTells(board, after, limit, f, p)
    ensures PageTells(longer, after, limit, f, p)
  {
    match after
    case None => SelectedStable(board, longer, 0, p.nextAfter, f);
    case Some(a) =>
      SelectedStable(board, longer, a, p.nextAfter, f);
      SelectedStable(board, longer, p.nextAfter, p.lastSequence, f);
  }

  lemma FirstPage(board: seq<BoardRow>, a: nat, through: nat, limit: nat)
    requires a <= through <= |board| && limit >= 1
    ensures var s := FirstAfter(board, a, through, EVERYTHING, limit);
            var next := if |s| > 0 then s[|s| - 1] else a;
            && a <= next <= through
            && s == Selected(board, a, next, EVERYTHING)
            && |s| <= limit
  {
    var all := Selected(board, a, through, EVERYTHING);
    SelectedEverything(board, a, through);
    if 0 < |all| {
      var n := if |all| <= limit then |all| else limit;
      SelectedCut(board, a, through, EVERYTHING, n);
      assert all[..|all|] == all;
    }
  }

  lemma EverythingAfter(board: seq<BoardRow>, next: nat, last: nat)
    requires last <= |board|
    ensures next < last ==> Selected(board, next, last, EVERYTHING) != []
  {
    if next < last {
      SelectedEverything(board, next, last);
    }
  }

  lemma LatestPage(board: seq<BoardRow>, limit: nat)
    requires limit >= 1
    ensures var s := Latest(board, |board|, EVERYTHING, limit);
            && (|s| > 0 ==> s[|s| - 1] == |board|)
            && (|s| == 0 ==> |board| == 0)
            && |s| <= limit
  {
    SelectedEverything(board, 0, |board|);
  }

  // What the branch without a filter selects from the board it meets.
  function Unfiltered(board: seq<BoardRow>, after: Option<int>, limit: nat): seq<nat>
    requires after.Some? ==> after.value >= 0
  {
    if after.None? then Latest(board, |board|, EVERYTHING, limit)
    else if after.value <= |board| then FirstAfter(board, after.value, |board|, EVERYTHING, limit)
    else []
  }

  lemma UnfilteredInRange(board: seq<BoardRow>, after: Option<int>, limit: int)
    requires ListValid(after, limit, EVERYTHING)
    ensures |Unfiltered(board, after, limit)| <= limit && (after.Some? ==> after.value >= 0)
    ensures forall n :: n in Unfiltered(board, after, limit) ==> 1 <= n <= |board|
  {
    hide FirstAfter, Latest;
    if after.None? {
      LatestPage(board, limit);
      LatestInRange(board, EVERYTHING, limit);
    } else if after.value <= |board| {
      FirstPage(board, after.value, |board|, limit);
      FirstInRange(board, after.value, |board|, EVERYTHING, limit);
    }
  }

  method SelectUnfiltered(storage: Host, after: Option<int>, limit: int) returns (sequences: seq<nat>)
    requires storage.Valid() && ListValid(after, limit, EVERYTHING)
    modifies storage`cas, storage`others, storage.journal
    ensures storage.OnlyRead()
    ensures sequences == Unfiltered(storage.State().db.board, after, limit)
  {
    hide StoreInv, Evolves, FirstAfter, Latest;
    storage.Yield();
    var board := storage.journal.board;
    if after.None? {
      return Latest(board, |board|, EVERYTHING, limit);
    } else if after.value <= |board| {
      return FirstAfter(board, after.value, |board|, EVERYTHING, limit);
    }
    return [];
  }

  // The branch without a filter: the messages first, the high-water mark after them.
  method ListUnfiltered(storage: Host, after: Option<int>, limit: int)
    returns (r: Result<Page, HostError>, ghost marked: Store, ghost counted: Store)
    requires storage.Valid() && ListValid(after, limit, EVERYTHING)
    modifies storage`cas, storage`others, storage.journal
    ensures storage.OnlyRead()
    ensures r.Ok? ==>
              && PageTells(storage.State().db.board, after, limit, EVERYTHING, r.value)
              && (forall i :: 0 <= i < |r.value.sequences| ==> TextAt(storage.State(), r.value.sequences[i], r.value.texts[i]))
              && r.value.lastSequence <= r.value.messageCount <= |storage.State().db.board|
              && Counts(EVERYTHING, marked, counted, r.value)
              && ReadInOrder(old(storage.State()), marked, counted, storage.State())
              && PageReaches(|old(storage.State()).db.board|, after, limit, EVERYTHING, r.value)
    ensures old(storage.others) == [] && AllReadable(old(storage.State())) ==> r.Ok?
  {
    hide StoreInv, Evolves, TextAt, Readable, Unfiltered, AllReadable, PageTells, ListValid;
    ghost var start := storage.State();
    marked, counted := start, start;
    var sequences := SelectUnfiltered(storage, after, limit);
    ghost var seen := storage.State();
    UnfilteredInRange(seen.db.board, after, limit);
    AllReadableInRange(start, sequences);
    var texts := ReadAll(storage, sequences);
    ghost var read := storage.State();
    EvolvesTransitive(start, seen, read);
    if texts.Err? {
      return Err(texts.error), marked, counted;
    }
    var last, count, first, second := ReadMarks(storage, sequences, texts.value);
    marked, counted := first, second;
    EvolvesTransitive(start, read, marked);
    EvolvesTransitive(start, read, storage.State());
    var next := if |sequences| > 0 then sequences[|sequences| - 1] else if after.Some? then after.value else 0;
    var page := Page(sequences, texts.value, count, last, next, next < last);
    EvolvesBoard(seen, read);
    EvolvesBoard(read, storage.State());
    EvolvesBoard(start, seen);
    UnfilteredTells(seen.db.board, storage.State().db.board, after, limit, page);
    return Ok(page), marked, counted;
  }

  // The high-water mark and the message count, read one after the other.
  method ReadMarks(storage: Host, ghost sequences: seq<nat>, ghost texts: seq<string>)
    returns (last: nat, count: nat, ghost marked: Store, ghost counted: Store)
    requires storage.Valid() && |texts| == |sequences|
    requires forall i :: 0 <= i < |sequences| ==> TextAt(storage.State(), sequences[i], texts[i])
    modifies storage`cas, storage`others, storage.journal
    ensures storage.OnlyRead()
    ensures |old(storage.State()).db.board| <= last <= count <= |storage.State().db.board|
    ensures forall i :: 0 <= i < |sequences| ==> TextAt(storage.State(), sequences[i], texts[i])
    ensures last == |marked.db.board| && count == |counted.db.board| && marked.db.board <= counted.db.board
    ensures ReadInOrder(old(storage.State()), marked, counted, storage.State())
  {
    hide StoreInv, Evolves, TextAt;
    ghost var start := storage.State();
    last := LastSequence(storage);
    marked := storage.State();
    count := LastSequence(storage);
    counted := storage.State();
    EvolvesReflexive(counted);
    EvolvesTransitive(start, marked, storage.State());
    EvolvesBoard(start, marked);
    EvolvesBoard(marked, storage.State());
    TextsStable(start, storage.State(), sequences, texts);
  }

  ghost predicate AllReadable(store: Store) {
    forall i :: 0 <= i < |store.db.board| ==> Readable(store, store.db.board[i])
  }

  lemma AllReadableInRange(store: Store, sequences: seq<nat>)
    ensures AllReadable(store) && (forall n :: n in sequences ==> 1 <= n <= |store.db.board|) ==>
              forall n :: n in sequences ==> Readable(store, store.db.board[n - 1])
  {
    hide Readable;
  }

  lemma FirstInRange(board: seq<BoardRow>, a: nat, through: nat, f: Filter, limit: nat)
    requires a <= through <= |board|
    ensures forall n :: n in FirstAfter(board, a, through, f, limit) ==> 1 <= n <= through
  {
    SelectedExact(board, a, through, f);
    forall n | n in FirstAfter(board, a, through, f, limit)
      ensures 1 <= n <= through
    {
      assert n in Selected(board, a, through, f);
      assert Selects(board, a, through, f, n);
    }
  }

  lemma LatestInRange(board: seq<BoardRow>, f: Filter, limit: nat)
    ensures forall n :: n in Latest(board, |board|, f, limit) ==> 1 <= n <= |board|
  {
    SelectedExact(board, 0, |board|, f);
    forall n | n in Latest(board, |board|, f, limit)
      ensures 1 <= n <= |board|
    {
      assert n in Selected(board, 0, |board|, f);
      assert Selects(board, 0, |board|, f, n);
    }
  }

  lemma UnfilteredTells(board: seq<BoardRow>, later: seq<BoardRow>, after: Option<int>, limit: int, p: Page)
    requires board <= later && |board| <= p.lastSequence <= |later| && |p.texts| == |p.sequences|
    requires ListValid(after, limit, EVERYTHING)
    requires p.sequences == Unfiltered(board, after, limit)
    requires p.nextAfter == (if |p.sequences| > 0 then p.sequences[|p.sequences| - 1] else if after.Some? then after.value else 0)
    requires p.hasMore == (p.nextAfter < p.lastSequence)
    ensures PageTells(later, after, limit, EVERYTHING, p)
    ensures PageReaches(|board|, after, limit, EVERYTHING, p)
  {
    match after
    case None =>
      LatestPage(board, limit);
      SelectedStable(board, later, 0, |board|, EVERYTHING);
    case Some(a) =>
      if a <= |board| {
        FirstPage(board, a, |board|, limit);
        SelectedStable(board, later, a, p.nextAfter, EVERYTHING);
      }
      EverythingAfter(later, p.nextAfter, p.lastSequence);
  }

  // What is shown of the rows at or before the cut, and where the next call continues: one
  // row more than the limit is asked for, to learn whether anything is left.
  datatype Cut = Cut(visible: seq<nat>, hasMore: bool, next: nat)

  function FilteredCut(board: seq<BoardRow>, after: Option<int>, limit: int, f: Filter): Cut
    requires ListValid(after, limit, f)
  {
    match after
    case None => Cut(Latest(board, |board|, f, limit), false, |board|)
    case Some(a) =>
      var pointers := if a <= |board| then FirstAfter(board, a, |board|, f, limit + 1) else [];
      if |pointers| > limit then Cut(pointers[..limit], true, pointers[limit - 1])
      else Cut(pointers, false, Max(a, |board|))
  }

  lemma CutInRange(board: seq<BoardRow>, after: Option<int>, limit: int, f: Filter)
    requires ListValid(after, limit, f)
    ensures forall n :: n in FilteredCut(board, after, limit, f).visible ==> 1 <= n <= |board|
  {
    match after
    case None => LatestInRange(board, f, limit);
    case Some(a) =>
      if a <= |board| {
        FirstInRange(board, a, |board|, f, limit + 1);
        var pointers := FirstAfter(board, a, |board|, f, limit + 1);
        assert forall n :: n in FilteredCut(board, after, limit, f).visible ==> n in pointers;
      }
  }

  lemma CutTells(board: seq<BoardRow>, after: Option<int>, limit: int, f: Filter, p: Page)
    requires ListValid(after, limit, f) && p.lastSequence == |board| && |p.texts| == |p.sequences|
    requires Cut(p.sequences, p.hasMore, p.nextAfter) == FilteredCut(board, after, limit, f)
    ensures PageTells(board, after, limit, f, p)
    ensures PageReaches(|board|, after, limit, f, p)
  {
    if after.Some? && after.value <= |board| {
      var all := Selected(board, after.value, |board|, f);
      if |all| > limit {
        SelectedCut(board, after.value, |board|, f, limit);
        assert p.sequences == all[..limit];
      }
    }
  }

  // The branch with a filter: the high-water mark first, then the rows up to it.
  method ListFiltered(storage: Host, after: Option<int>, limit: int, f: Filter)
    returns (r: Result<Page, HostError>, ghost marked: Store, ghost counted: Store)
    requires storage.Valid() && ListValid(after, limit, f)
    modifies storage`cas, storage`others, storage.journal
    ensures storage.OnlyRead()
    ensures r.Ok? ==>
              && PageTells(storage.State().db.board, after, limit, f, r.value)
              && (forall i :: 0 <= i < |r.value.sequences| ==> TextAt(storage.State(), r.value.sequences[i], r.value.texts[i]))
              && r.value.lastSequence <= r.value.messageCount <= |storage.State().db.board|
              && Counts(f, marked, counted, r.value)
              && ReadInOrder(old(storage.State()), marked, counted, storage.State())
              && PageReaches(|old(storage.State()).db.board|, after, limit, f, r.value)
    ensures old(storage.others) == [] && AllReadable(old(storage.State())) ==> r.Ok?
  {
    hide StoreInv, Evolves, TextAt, Readable, FilteredCut, AllReadable, PageTells, ListValid;
    ghost var start := storage.State();
    var last := LastSequence(storage);
    marked, counted := storage.State(), storage.State();
    EvolvesReflexive(marked);
    storage.Yield();
    ghost var seen := storage.State();
    EvolvesTransitive(start, marked, seen);
    EvolvesBoard(marked, seen);
    var board := storage.journal.board[..last];
    var cut := FilteredCut(board, after, limit, f);
    CutInRange(board, after, limit, f);
    AllReadableInRange(start, cut.visible);
    var texts := ReadAll(storage, cut.visible);
    ghost var read := storage.State();
    EvolvesTransitive(start, seen, read);
    EvolvesBoard(seen, read);
    if texts.Err? {
      return Err(texts.error), marked, counted;
    }
    EvolvesTransitive(marked, seen, read);
    var count := last;
    if f.topic.None? {
      count := LastSequence(storage);
      EvolvesTransitive(start, read, storage.State());
      EvolvesBoard(read, storage.State());
      TextsStable(read, storage.State(), cut.visible, texts.value);
      counted := storage.State();
      EvolvesTransitive(marked, read, counted);
      EvolvesReflexive(counted);
    }
    var page := Page(cut.visible, texts.value, count, last, cut.next, cut.hasMore);
    CutTells(board, after, limit, f, page);
    EvolvesBoard(start, marked);
    PageStable(board, storage.State().db.board, after, limit, f, page);
    return Ok(page), marked, counted;
  }

  // list
  method ListMessages(storage: Host, after: Option<int>, limit: int, f: Filter)
    returns (r: Result<Page, HostError>, ghost marked: Store, ghost counted: Store)
    requires storage.Valid()
    modifies storage`cas, storage`others, storage.journal
    ensures storage.OnlyRead()
    ensures r.Ok? ==>
              && PageTells(storage.State().db.board, after, limit, f, r.value)
              && (forall i :: 0 <= i < |r.value.sequences| ==> TextAt(storage.State(), r.value.sequences[i], r.value.texts[i]))
              && r.value.lastSequence <= r.value.messageCount <= |storage.State().db.board|
              && Counts(f, marked, counted, r.value)
              && ReadInOrder(old(storage.State()), marked, counted, storage.State())
              && PageReaches(|old(storage.State()).db.board|, after, limit, f, r.value)
              && (r.value.messageCount == r.value.lastSequence <==> f.topic.Some? || counted.db.board == marked.db.board)
    ensures !ListValid(after, limit, f) ==> r == Err(ValueError)
    ensures old(storage.others) == [] && ListValid(after, limit, f) && AllReadable(old(storage.State())) ==> r.Ok?
  {
    hide StoreInv, Evolves, TextAt, PageTells, AllReadable, Counts, ReadInOrder, PageReaches;
    EvolvesReflexive(storage.State());
    marked, counted := storage.State(), storage.State();
    if !ListValid(after, limit, f) {
      return Err(ValueError), marked, counted;
    }
    if f == EVERYTHING {
      r, marked, counted := ListUnfiltered(storage, after, limit);
    } else {
      r, marked, counted := ListFiltered(storage, after, limit, f);
    }
    if r.Ok? {
      CountIsMarkIff(f, marked, counted, r.value);
    }
  }

  // Theorem: feeding each cursor into the next call, with posts interleaved anywhere and
  // any limits, delivers every matching message between the first and the last cursor
  // exactly once and in order.
  method Poll(storage: Host, start: nat, limits: seq<int>, f: Filter)
    returns (delivered: seq<nat>, cursor: nat, more: bool, last: nat)
    requires storage.Valid()
    modifies storage`cas, storage`others, storage.journal
    ensures storage.OnlyRead()
    ensures start <= cursor && (cursor <= |storage.State().db.board| || cursor == start) && last <= |storage.State().db.board|
    ensures delivered == Selected(storage.State().db.board, start, cursor, f)
    ensures !more ==> last <= cursor
  {
    hide StoreInv, Evolves;
    ghost var began := storage.State();
    EvolvesReflexive(began);
    delivered, cursor, more, last := [], start, true, 0;
    var i := 0;
    while i < |limits|
      invariant 0 <= i <= |limits|
      invariant storage.OnlyRead()
      invariant start <= cursor && (cursor <= |storage.State().db.board| || cursor == start) && last <= |storage.State().db.board|
      invariant delivered == Selected(storage.State().db.board, start, cursor, f)
      invariant !more ==> last <= cursor
    {
      ghost var before := storage.State();
      var page, _, _ := ListMessages(storage, Some(cursor), limits[i], f);
      EvolvesTransitive(began, before, storage.State());
      EvolvesBoard(before, storage.State());
      SelectedStable(before.db.board, storage.State().db.board, start, cursor, f);
      match page
      case Err(_) => return;
      case Ok(p) =>
        SelectedSplit(storage.State().db.board, start, cursor, p.nextAfter, f);
        delivered := delivered + p.sequences;
        cursor, more, last := p.nextAfter, p.hasMore, p.lastSequence;
        i := i + 1;
    }
  }

  // validate_integrity: every message up to the high-water mark captured first, each read
  // exactly once; later messages belong to a later round.
  method ValidateIntegrity(storage: Host) returns (r: Result<nat, HostError>)
    requires storage.Valid()
    modifies storage`cas, storage`others, storage.journal
    ensures storage.OnlyRead()
    ensures r.Ok? ==>
              && |old(storage.State()).db.board| <= r.value <= |storage.State().db.board|
              && forall k :: 0 <= k < r.value ==> Readable(storage.State(), storage.State().db.board[k])
    ensures old(storage.others) == [] && AllReadable(old(storage.State())) ==>
              r == Ok(|old(storage.State()).db.board|)
  {
    hide StoreInv, Evolves, Readable, AllReadable, TextAt, FirstAfter;
    ghost var start := storage.State();
    var boundary := LastSequence(storage);
    EvolvesBoard(start, storage.State());
    var done := 0;
    while done < boundary
      invariant 0 <= done <= boundary <= |storage.State().db.board|
      invariant storage.OnlyRead()
      invariant ReadUpTo(storage.State(), done)
    {
      ghost var before := storage.State();
      storage.Yield();
      ghost var seen := storage.State();
      EvolvesBoard(before, seen);
      EvolvesTransitive(start, before, seen);
      ReadUpToStable(before, seen, done);
      var board := storage.journal.board;
      var pointers := FirstAfter(board, done, |board|, EVERYTHING, 256);
      FirstInRange(board, done, |board|, EVERYTHING, 256);
      NextBatch(board, done, 256);
      var within := if done + |pointers| <= boundary then pointers else pointers[..boundary - done];
      AllReadableInRange(start, within);
      var texts := ReadAll(storage, within);
      EvolvesTransitive(start, seen, storage.State());
      EvolvesBoard(seen, storage.State());
      if texts.Err? {
        return Err(texts.error);
      }
      ReadUpToStable(seen, storage.State(), done);
      ReadUpToGrows(storage.State(), done, within, texts.value);
      done := done + |within|;
    }
    return Ok(done);
  }

  ghost predicate ReadUpTo(store: Store, n: nat) {
    n <= |store.db.board| && forall k :: 0 <= k < n ==> Readable(store, store.db.board[k])
  }

  lemma ReadUpToStable(before: Store, after: Store, n: nat)
    requires Evolves(before, after) && ReadUpTo(before, n)
    ensures ReadUpTo(after, n)
  {
    hide Evolves, ReadMessage;
    EvolvesBoard(before, after);
    forall k | 0 <= k < n
      ensures Readable(after, after.db.board[k])
    {
      ReadStable(before, after, before.db.board[k]);
    }
  }

  lemma NextBatch(board: seq<BoardRow>, done: nat, limit: nat)
    requires done < |board| && limit >= 1
    ensures var s := FirstAfter(board, done, |board|, EVERYTHING, limit);
            && 0 < |s| && done + |s| <= |board|
            && forall i :: 0 <= i < |s| ==> s[i] == done + 1 + i
  {
    SelectedEverything(board, done, |board|);
  }

  lemma ReadUpToGrows(store: Store, done: nat, within: seq<nat>, texts: seq<string>)
    requires ReadUpTo(store, done) && |texts| == |within| && done + |within| <= |store.db.board|
    requires forall i :: 0 <= i < |within| ==> within[i] == done + 1 + i && TextAt(store, within[i], texts[i])
    ensures ReadUpTo(store, done + |within|)
  {
    forall k | 0 <= k < done + |within|
      ensures Readable(store, store.db.board[k])
    {
      if done <= k {
        assert TextAt(store, within[k - done], texts[k - done]);
      }
    }
  }

  // ---- Posting ----

  predicate MessageValid(m: Message) {
    && Text.IsLabel(m.clientMessageId) && |m.clientMessageId| <= 256
    && Text.IsLabel(m.author) && |m.author| <= 128
    && 1 <= |m.text| <= 4096 && (exists i :: 0 <= i < |m.text| && !Text.IsSpace(m.text[i]))
    && (m.topic.Some? ==> Text.IsLabel(m.topic.value) && |m.topic.value| <= 256)
    && (m.replyTo.Some? ==> Text.IsLabel(m.replyTo.value) && |m.replyTo.value| <= 256)
  }

  function PostRequest(m: Message, atMs: int): BoardRequest {
    var stored := Described(BOARD_OBJECT_KIND, MessageJson(m));
    BoardRequest(BoardRow(m.clientMessageId, m.author, m.kind, m.topic, stored.digest, m.replyTo, atMs), stored)
  }

  // The message stands on the board, readable, under its client identity.
  ghost predicate Posted(store: Store, m: Message) {
    var i := FindMessage(store.db.board, m.clientMessageId);
    && i.Some?
    && RowMessage(store.db.board[i.value], m.text) == m
    && ReadMessage(store, store.db.board[i.value]) == Ok(m.text)
  }

  lemma {:induction false} FindMessageKept(board: seq<BoardRow>, longer: seq<BoardRow>, id: string, i: nat)
    requires board <= longer && FindMessage(board, id) == Some(i)
    requires forall a, b :: 0 <= a < b < |longer| ==> longer[a].clientMessageId != longer[b].clientMessageId
    ensures FindMessage(longer, id) == Some(i)
  {
    var j := FindMessage(longer, id);
    assert longer[i].clientMessageId == id;
    assert j.Some? && longer[j.value].clientMessageId == id;
    assert j.value == i;
  }

  lemma UniqueMessages(store: Store)
    requires StoreInv(store)
    ensures forall a, b :: 0 <= a < b < |store.db.board| ==>
              store.db.board[a].clientMessageId != store.db.board[b].clientMessageId
  {
  }

  lemma PostedStable(before: Store, after: Store, m: Message)
    requires StoreInv(after) && Evolves(before, after) && Posted(before, m)
    ensures Posted(after, m)
  {
    hide StoreInv, Evolves, ReadMessage;
    var i := FindMessage(before.db.board, m.clientMessageId).value;
    EvolvesBoard(before, after);
    UniqueMessages(after);
    FindMessageKept(before.db.board, after.db.board, m.clientMessageId, i);
    ReadStable(before, after, before.db.board[i]);
  }

  lemma AcceptedPost(met: Store, m: Message, atMs: int)
    requires StoreInv(met) && Available(met, PostRequest(m, atMs).stored)
    requires T.AppendBoardMessage(met.db, PostRequest(m, atMs)).result == Ok(Created)
    ensures Posted(Perform(met, Post(PostRequest(m, atMs))), m)
  {
    hide StoreInv, MessageJson;
    var b := PostRequest(m, atMs);
    PostEffect(met.db, b);
    OneAdmission(met.db.objects, b.stored, atMs, OnAccess);
    var after := Perform(met, Post(b));
    FindLast(met.db.board, b.row);
    MessageReads(after, m, b.row);
  }

  lemma FindLast(board: seq<BoardRow>, row: BoardRow)
    ensures FindMessage(board + [row], row.clientMessageId) == Some(|board|)
  {
  }

  // A repeated row: the same columns and the same object, so the same message.
  lemma ReplayedPost(met: Store, m: Message, atMs: int)
    requires StoreInv(met) && Available(met, PostRequest(m, atMs).stored)
    requires T.AppendBoardMessage(met.db, PostRequest(m, atMs)).result == Ok(Existing)
    ensures Perform(met, Post(PostRequest(m, atMs))) == met
    ensures var i := FindMessage(met.db.board, m.clientMessageId);
            i.Some? && T.SameMessage(met.db.board[i.value], PostRequest(m, atMs).row)
  {
    hide StoreInv, MessageJson, Available;
    PostEffect(met.db, PostRequest(m, atMs));
  }

  lemma ReplayedReads(store: Store, m: Message, atMs: int)
    requires StoreInv(store)
    requires var i := FindMessage(store.db.board, m.clientMessageId);
             i.Some? && T.SameMessage(store.db.board[i.value], PostRequest(m, atMs).row)
    ensures Posted(store, m)
  {
    hide StoreInv, MessageJson, Open;
    var i := FindMessage(store.db.board, m.clientMessageId).value;
    RowObject(store, i);
    assert Text.IsLabel(BOARD_OBJECT_KIND);
    OpenAddress(BOARD_OBJECT_KIND, MessageJson(m));
    MessageReads(store, m, store.db.board[i]);
  }

  lemma RowObject(store: Store, i: nat)
    requires StoreInv(store) && i < |store.db.board|
    ensures var d := store.db.board[i].messageDigest;
            && d in store.db.objects && d in store.cas
            && Open(d).Some? && store.db.objects[d].kind == Open(d).value.kind
  {
    hide Open;
    assert DescribesBytes(store.db.board[i].messageDigest, store.db.objects[store.db.board[i].messageDigest]);
  }

  // post: a known identity is compared in full before anything is written.
  method PostMessage(storage: Host, m: Message, atMs: int) returns (r: Result<EventAdmission, HostError>)
    requires storage.Valid()
    modifies storage`cas, storage`others, storage`mine, storage.journal
    ensures storage.Advanced() && old(storage.mine) <= storage.mine
    ensures forall k :: |old(storage.mine)| <= k < |storage.mine| && storage.mine[k].action.Post? ==>
              storage.mine[k].action == Post(PostRequest(m, atMs)) && k == |storage.mine| - 1
    ensures r.Ok? ==> Posted(storage.State(), m)
    // An identical post that already stands is answered without writing anything; a
    // different one under its identity is refused.
    ensures old(storage.others) == [] && MessageValid(m)
            && FindMessage(old(storage.State()).db.board, m.clientMessageId).Some?
            ==> && storage.State() == old(storage.State()) && storage.mine == old(storage.mine)
                && (Posted(old(storage.State()), m) <==> r.Ok?) && (r.Ok? ==> r.value == Existing)
    // A message out of its limits, or one that answers nothing, is refused before anything is written.
    ensures !MessageValid(m) ==> r == Err(ValueError) && storage.State() == old(storage.State()) && storage.mine == old(storage.mine)
    ensures old(storage.others) == [] && MessageValid(m)
            && FindMessage(old(storage.State()).db.board, m.clientMessageId).None?
            && m.replyTo.Some? && FindMessage(old(storage.State()).db.board, m.replyTo.value).None?
            ==> r == Err(EventConflict) && storage.State() == old(storage.State()) && storage.mine == old(storage.mine)
    // An undisturbed new post is admitted.
    ensures old(storage.others) == [] && MessageValid(m) && atMs >= 0 && m.replyTo != Some(m.clientMessageId)
            && FindMessage(old(storage.State()).db.board, m.clientMessageId).None?
            && (m.replyTo.Some? ==> FindMessage(old(storage.State()).db.board, m.replyTo.value).Some?)
            ==> r == Ok(Created)
  {
    hide StoreInv, Evolves, Available, MessageJson, ReadMessage, T.AppendBoardMessage, Posted;
    ghost var start := storage.State();
    EvolvesReflexive(start);
    if !MessageValid(m) {
      return Err(ValueError);
    }
    storage.Yield();
    ghost var looked := storage.State();
    var known := FindMessage(storage.journal.board, m.clientMessageId);
    if known.Some? {
      storage.Yield();
      EvolvesTransitive(start, looked, storage.State());
      EvolvesBoard(looked, storage.State());
      UniqueMessages(storage.State());
      FindMessageKept(looked.db.board, storage.State().db.board, m.clientMessageId, known.value);
      var row := storage.journal.board[known.value];
      var text := ReadMessage(Store(storage.journal.View(), storage.cas), row);
      PostedIff(storage.State(), m);
      if text.Err? {
        return Err(text.error);
      }
      if RowMessage(row, text.value) != m {
        return Err(EventConflict);
      }
      return Ok(Existing);
    }
    if m.replyTo.Some? {
      storage.Yield();
      EvolvesTransitive(start, looked, storage.State());
      var target := FindMessage(storage.journal.board, m.replyTo.value);
      if target.None? {
        return Err(EventConflict);
      }
    }
    ghost var checked := storage.State();
    r := AppendMessage(storage, m, atMs);
    EvolvesTransitive(start, checked, storage.State());
  }

  lemma PostedIff(store: Store, m: Message)
    requires FindMessage(store.db.board, m.clientMessageId).Some?
    ensures var row := store.db.board[FindMessage(store.db.board, m.clientMessageId).value];
            Posted(store, m) <==> ReadMessage(store, row).Ok? && RowMessage(row, ReadMessage(store, row).value) == m
  {
    hide ReadMessage;
  }

  lemma FreshPostSucceeds(met: Store, m: Message, atMs: int)
    requires StoreInv(met) && Available(met, PostRequest(m, atMs).stored) && MessageValid(m) && atMs >= 0
    requires m.replyTo != Some(m.clientMessageId) && FindMessage(met.db.board, m.clientMessageId).None?
    requires m.replyTo.Some? ==> FindMessage(met.db.board, m.replyTo.value).Some?
    ensures T.AppendBoardMessage(met.db, PostRequest(m, atMs)).result == Ok(Created)
  {
    hide StoreInv, MessageJson, Open;
    MetObjects(met);
    AdmissionSucceeds(met.db.objects, PostRequest(m, atMs).stored, atMs, OnAccess, met.cas);
  }

  lemma MetObjects(store: Store)
    requires StoreInv(store)
    ensures ObjectsStored(store.db.objects, store.cas)
  {
  }

  // The object, the row, and the read that answers the caller.
  method AppendMessage(storage: Host, m: Message, atMs: int) returns (r: Result<EventAdmission, HostError>)
    requires storage.Valid() && MessageValid(m)
    modifies storage`cas, storage`others, storage`mine, storage.journal
    ensures storage.Advanced() && old(storage.mine) <= storage.mine
    ensures forall k :: |old(storage.mine)| <= k < |storage.mine| && storage.mine[k].action.Post? ==>
              storage.mine[k].action == Post(PostRequest(m, atMs)) && k == |storage.mine| - 1
    ensures r.Ok? ==> Posted(storage.State(), m)
    ensures old(storage.others) == [] && atMs >= 0 && m.replyTo != Some(m.clientMessageId)
            && FindMessage(old(storage.State()).db.board, m.clientMessageId).None?
            && (m.replyTo.Some? ==> FindMessage(old(storage.State()).db.board, m.replyTo.value).Some?)
            ==> r == Ok(Created)
  {
    hide StoreInv, Evolves, Available, MessageJson, ReadMessage, T.AppendBoardMessage, Posted, MessageValid, Disciplined;
    ghost var entered := storage.State();
    var stored := storage.PutObject(BOARD_OBJECT_KIND, MessageJson(m));
    ghost var written := storage.State();
    PutKeepsDb(entered, BOARD_OBJECT_KIND, MessageJson(m));
    r := storage.AppendBoardMessage(PostRequest(m, atMs));
    ghost var met, appended := storage.mine[|storage.mine| - 1].store, storage.State();
    EvolvesTransitive(entered, written, appended);
    AvailableStable(written, met, stored);
    if FindMessage(met.db.board, m.clientMessageId).None? && atMs >= 0 && m.replyTo != Some(m.clientMessageId)
       && (m.replyTo.Some? ==> FindMessage(met.db.board, m.replyTo.value).Some?)
    {
      FreshPostSucceeds(met, m, atMs);
    }
    if r.Err? {
      return;
    }
    if r.value == Created {
      AcceptedPost(met, m, atMs);
    } else {
      ReplayedPost(met, m, atMs);
      ReplayedReads(met, m, atMs);
    }
    storage.Yield();
    EvolvesTransitive(entered, appended, storage.State());
    PostedStable(appended, storage.State(), m);
  }

  // ---- A count above the mark ----

  function Hello(): Message {
    Message("m", "a", Note, None, "hello", None)
  }

  function HelloActs(): seq<Action> {
    [Put(BOARD_OBJECT_KIND, MessageJson(Hello()))] + [Post(PostRequest(Hello(), 0))]
  }

  lemma HelloIsPosted()
    ensures |Run(FRESH, HelloActs()).db.board| == 1
  {
    hide StoreInv, MessageJson, T.AppendBoardMessage, FRESH, Hello, Perform, Disciplined, Described, PostRequest;
    var put, post := Put(BOARD_OBJECT_KIND, MessageJson(Hello())), Post(PostRequest(Hello(), 0));
    assert HelloActs()[..1] == [put] && [put][..0] == [];
    HelloIsPut();
    var met := Perform(FRESH, put);
    assert Run(FRESH, [put]) == met;
    HelloIsValid();
    FreshPostSucceeds(met, Hello(), 0);
    PostedBoard(met, PostRequest(Hello(), 0));
  }

  lemma HelloIsPut()
    ensures var put := Put(BOARD_OBJECT_KIND, MessageJson(Hello()));
            && Disciplined(FRESH, put)
            && StoreInv(Perform(FRESH, put))
            && Perform(FRESH, put).db.board == []
            && Available(Perform(FRESH, put), PostRequest(Hello(), 0).stored)
            && Disciplined(Perform(FRESH, put), Post(PostRequest(Hello(), 0)))
  {
    hide StoreInv, MessageJson, Open;
    var put := Put(BOARD_OBJECT_KIND, MessageJson(Hello()));
    assert Text.IsLabel(BOARD_OBJECT_KIND);
    FreshStoreInv();
    StepKeeps(FRESH, put);
    OpenAddress(BOARD_OBJECT_KIND, MessageJson(Hello()));
  }

  lemma PostedBoard(met: Store, b: BoardRequest)
    requires T.AppendBoardMessage(met.db, b).result == Ok(Created)
    ensures Perform(met, Post(b)).db.board == met.db.board + [b.row]
  {
    hide T.AppendBoardMessage;
    AddedRow(met.db, b);
  }

  lemma HelloIsValid()
    ensures MessageValid(Hello()) && FindMessage([], Hello().clientMessageId).None? && Hello().replyTo.None?
  {
    assert !Text.IsSpace("hello"[0]);
  }

  lemma AddedRow(db: Db, b: BoardRequest)
    requires T.AppendBoardMessage(db, b).result == Ok(Created)
    ensures T.AppendBoardMessage(db, b).db.board == db.board + [b.row]
  {
  }

  // Theorem: with a reply filter and no topic, a post between the two reads makes the count
  // exceed the mark of a page that is otherwise exact.
  lemma CountCanExceed()
    ensures exists acts, f: Filter, page: Page ::
              var counted := Run(FRESH, acts);
              && f.topic.None? && ListValid(Some(0), 10, f)
              && Counts(f, FRESH, counted, page) && PageTells(counted.db.board, Some(0), 10, f, page)
              && page.messageCount == page.lastSequence + 1
  {
    hide Run, HelloActs;
    HelloIsPosted();
    var counted := Run(FRESH, HelloActs());
    var f, page := Filter(None, Some("q")), Page([], [], 1, 0, 0, false);
    assert Text.IsLabel("q");
    assert Counts(f, FRESH, counted, page) && PageTells(counted.db.board, Some(0), 10, f, page);
  }

  // When a message's text is read: the row's object is known as a board message, is stored, is
  // one, and is exactly the message the row describes with that text.
  lemma ReadExactly(store: Store, row: BoardRow, text: string)
    ensures ReadMessage(store, row) == Ok(text) <==>
              && row.messageDigest in store.db.objects && store.db.objects[row.messageDigest].kind == "host-board-message"
              && row.messageDigest in store.cas
              && Open(row.messageDigest) ==
                 Some(Opened("host-board-message",
                             MessageJson(Message(row.clientMessageId, row.author, row.kind, row.topic, text, row.replyTo))))
  {
    hide Open;
    var m := MessageJson(RowMessage(row, text));
    assert m.fields.Keys == MESSAGE_FIELDS && m.fields["message"] == Str(text);
  }

  lemma KindNamesDiffer(j: MessageKind, k: MessageKind)
    requires KindName(j) == KindName(k)
    ensures j == k
  {
    assert KindName(j)[0] == KindName(k)[0] && KindName(j)[2] == KindName(k)[2];
  }

  // Theorem: the digest of a stored message is that of one message only.
  lemma DigestNamesMessage(m: Message, atMs: int, m': Message, atMs': int)
    requires PostRequest(m, atMs).stored.digest == PostRequest(m', atMs').stored.digest
    ensures m == m'
  {
    var f, f' := MessageJson(m).fields, MessageJson(m').fields;
    assert Envelope(BOARD_OBJECT_KIND, MessageJson(m)).fields["payload"] == MessageJson(m);
    assert Envelope(BOARD_OBJECT_KIND, MessageJson(m')).fields["payload"] == MessageJson(m');
    assert f["clientMessageId"] == f'["clientMessageId"] && f["authorLabel"] == f'["authorLabel"];
    assert f["messageKind"] == f'["messageKind"] && f["topic"] == f'["topic"] && f["message"] == f'["message"];
    assert f["replyToClientMessageId"] == f'["replyToClientMessageId"];
    KindNamesDiffer(m.kind, m'.kind);
  }

  // The limits of a message and of a listing, in numbers.
  lemma LimitsExactly(m: Message, after: Option<int>, limit: int, f: Filter)
    ensures MessageValid(m) <==>
              && OfLength(Some(m.clientMessageId), 256) && OfLength(Some(m.author), 128)
              && OfLength(m.topic, 256) && OfLength(m.replyTo, 256)
              && m.text != "" && |m.text| < 4097 && exists c :: c in m.text && !Text.IsSpace(c)
    ensures ListValid(after, limit, f) <==>
              && (after == None || after.value > -1) && 0 < limit < 101
              && OfLength(f.topic, 256) && OfLength(f.replyTo, 256)
  {
    if i :| 0 <= i < |m.text| && !Text.IsSpace(m.text[i]) {
      assert m.text[i] in m.text;
    }
    if c :| c in m.text && !Text.IsSpace(c) {
      var i :| 0 <= i < |m.text| && m.text[i] == c;
    }
  }

  // Absent, or a trimmed text of 1 to n characters.
  predicate OfLength(s: Option<string>, n: nat) {
    s.Some? ==> s.value != "" && Text.Trimmed(s.value) && |s.value| <= n
  }
}
