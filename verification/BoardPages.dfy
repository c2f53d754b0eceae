// Which board messages a filter selects between two sequence numbers, and what a page of
// them leaves for the next call. A message's sequence is its position plus one.
module BoardPages {
  import opened Base
  import opened Tables

  datatype Filter = Filter(topic: Option<string>, replyTo: Option<string>)

  const EVERYTHING := Filter(None, None)

  predicate Matches(row: BoardRow, f: Filter) {
    && (f.topic.Some? ==> row.topic == f.topic)
    && (f.replyTo.Some? ==> row.replyTo == f.replyTo)
  }

  // Sequences in (lo, hi] whose message matches, oldest first.
  function Selected(board: seq<BoardRow>, lo: nat, hi: nat, f: Filter): seq<nat>
    requires hi <= |board| || hi <= lo
  {
    if hi <= lo then []
    else Selected(board, lo, hi - 1, f) + (if Matches(board[hi - 1], f) then [hi] else [])
  }

  // The message is in range and has the topic and the reply target asked for.
  predicate Selects(board: seq<BoardRow>, lo: nat, hi: nat, f: Filter, n: nat)
    requires hi <= |board|
  {
    && lo < n <= hi
    && (f.topic == None || board[n - 1].topic == f.topic)
    && (f.replyTo == None || board[n - 1].replyTo == f.replyTo)
  }

  // Independent description: exactly the matching sequences in range, each once, in order.
  lemma {:induction false} SelectedExact(board: seq<BoardRow>, lo: nat, hi: nat, f: Filter)
    requires lo <= hi <= |board|
    ensures var s := Selected(board, lo, hi, f);
            && (forall n :: n in s <==> Selects(board, lo, hi, f, n))
            && (forall i, j :: 0 <= i < j < |s| ==> s[i] < s[j])
  {
    if lo < hi {
      SelectedExact(board, lo, hi - 1, f);
      var s, t := Selected(board, lo, hi, f), Selected(board, lo, hi - 1, f);
      forall n: nat
        ensures n in s <==> Selects(board, lo, hi, f, n)
      {
        assert n in t <==> Selects(board, lo, hi - 1, f, n);
      }
      forall i | 0 <= i < |t|
        ensures t[i] < hi
      {
        assert Selects(board, lo, hi - 1, f, t[i]);
      }
    }
  }

  lemma {:induction false} SelectedSplit(board: seq<BoardRow>, lo: nat, mid: nat, hi: nat, f: Filter)
    requires lo <= mid <= hi && (hi <= |board| || hi <= lo)
    ensures Selected(board, lo, hi, f) == Selected(board, lo, mid, f) + Selected(board, mid, hi, f)
    decreases hi
  {
    if mid < hi {
      SelectedSplit(board, lo, mid, hi - 1, f);
    }
  }

  // Messages appended later do not disturb what was selected.
  lemma {:induction false} SelectedStable(board: seq<BoardRow>, longer: seq<BoardRow>, lo: nat, hi: nat, f: Filter)
    requires board <= longer && (hi <= |board| || hi <= lo)
    ensures Selected(longer, lo, hi, f) == Selected(board, lo, hi, f)
    decreases hi
  {
    if lo < hi {
      SelectedStable(board, longer, lo, hi - 1, f);
    }
  }

  // Without a filter every sequence in range is selected.
  lemma {:induction false} SelectedEverything(board: seq<BoardRow>, lo: nat, hi: nat)
    requires lo <= hi <= |board|
    ensures Selected(board, lo, hi, EVERYTHING) == seq(hi - lo, i requires 0 <= i < hi - lo => lo + 1 + i)
  {
    if lo < hi {
      SelectedEverything(board, lo, hi - 1);
    }
  }

  // Cutting a selection at one of its own members keeps everything up to that member.
  lemma {:induction false} SelectedCut(board: seq<BoardRow>, lo: nat, hi: nat, f: Filter, n: nat)
    requires lo <= hi <= |board| && 0 < n <= |Selected(board, lo, hi, f)|
    ensures var s := Selected(board, lo, hi, f);
            && lo < s[n - 1] <= hi
            && Selected(board, lo, s[n - 1], f) == s[..n]
            && Selected(board, s[n - 1], hi, f) == s[n..]
  {
    var s := Selected(board, lo, hi, f);
    SelectedExact(board, lo, hi, f);
    assert s[n - 1] in s;
    var cut := s[n - 1];
    SelectedSplit(board, lo, cut, hi, f);
    var head, tail := Selected(board, lo, cut, f), Selected(board, cut, hi, f);
    SelectedExact(board, lo, cut, f);
    assert s == head + tail;
    assert Selects(board, lo, hi, f, cut) && Selects(board, lo, cut, f, cut);
    var k :| 0 <= k < |head| && head[k] == cut;
    assert Selects(board, lo, cut, f, head[|head| - 1]);
    assert k == |head| - 1;
    assert s[k] == cut;
    assert k == n - 1;
  }

  // `ORDER BY sequence ASC LIMIT n` over the rows after a cursor.
  function FirstAfter(board: seq<BoardRow>, after: nat, through: nat, f: Filter, limit: nat): seq<nat>
    requires through <= |board|
  {
    var s := Selected(board, after, through, f);
    if |s| <= limit then s else s[..limit]
  }

  // `ORDER BY sequence DESC LIMIT n`, reversed.
  function Latest(board: seq<BoardRow>, through: nat, f: Filter, limit: nat): seq<nat>
    requires through <= |board|
  {
    var s := Selected(board, 0, through, f);
    if |s| <= limit then s else s[|s| - limit..]
  }
}
