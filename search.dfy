/**
 * The mock search of the page: a search box whose keystrokes are debounced,
 * a case-insensitive substring filter over a fixed catalogue of three
 * records, and the single results panel that a search fills and a short
 * query removes.
 */
module Search {
  import opened Common

  /** One entry of the mock catalogue; `kind` is the "track" or "album" tag shown beside the artist. */
  datatype Record = Record(title: string, artist: string, kind: string)

  /** The catalogue every search filters, in the order the script lists it. */
  const Catalogue: seq<Record> := [
    Record("Digital Dreams", "CryptoBeats", "track"),
    Record("Blockchain Beats", "Web3Sounds", "track"),
    Record("NFT Symphony", "NFTunes", "album")
  ]

  // ---------------------------------------------------------------------
  // Case folding and substring search
  // ---------------------------------------------------------------------

  predicate IsUpper(c: char) { 'A' <= c <= 'Z' }

  /** ASCII lower-casing of one character; every other character is kept. */
  function LowerChar(c: char): char
  {
    if IsUpper(c) then (c as int - 'A' as int + 'a' as int) as char else c
  }

  function Lower(s: string): string
  {
    seq(|s|, i requires 0 <= i < |s| => LowerChar(s[i]))
  }

  /** Lower-casing leaves no upper-case letter behind, and doing it twice is doing it once. */
  lemma LowerIsFolded(s: string)
    ensures |Lower(s)| == |s|
    ensures forall i :: 0 <= i < |s| ==> !IsUpper(Lower(s)[i])
    ensures Lower(Lower(s)) == Lower(s)
  {
  }

  /** `q` occurs in `s` starting at position `i`. */
  predicate OccursAt(s: string, q: string, i: nat)
  {
    i + |q| <= |s| && s[i..i + |q|] == q
  }

  /** The `includes` test: `q` is a prefix of `s` or occurs in what follows its first character. */
  predicate Includes(s: string, q: string)
    decreases |s|
  {
    |q| <= |s| && (s[..|q|] == q || (|s| > 0 && Includes(s[1..], q)))
  }

  /** `Includes` is exactly "occurs at some position". */
  lemma {:induction false} IncludesIffOccurs(s: string, q: string)
    ensures Includes(s, q) <==> exists i: nat :: OccursAt(s, q, i)
    decreases |s|
  {
    if |q| <= |s| && s[..|q|] == q {
      assert OccursAt(s, q, 0);
    } else if |q| <= |s| && |s| > 0 {
      IncludesIffOccurs(s[1..], q);
      if Includes(s, q) {
        var i: nat :| OccursAt(s[1..], q, i);
        assert s[i + 1..i + 1 + |q|] == s[1..][i..i + |q|];
        assert OccursAt(s, q, i + 1);
      }
      if exists i: nat :: OccursAt(s, q, i) {
        var i: nat :| OccursAt(s, q, i);
        assert i != 0;
        assert s[1..][i - 1..i - 1 + |q|] == s[i..i + |q|];
        assert OccursAt(s[1..], q, i - 1);
      }
    } else {
      assert forall i: nat :: !OccursAt(s, q, i);
    }
  }

  /** The filter's test: the query, lower-cased, occurs in the lower-cased title or artist. */
  predicate Matches(r: Record, query: string)
  {
    Includes(Lower(r.title), Lower(query)) || Includes(Lower(r.artist), Lower(query))
  }

  // ---------------------------------------------------------------------
  // The filter
  // ---------------------------------------------------------------------

  /** `a` is obtained from `b` by deleting elements, keeping the order of the rest. */
  predicate IsSubsequence<T(==)>(a: seq<T>, b: seq<T>)
    decreases |b|
  {
    if b == [] then a == []
    else (a != [] && a[0] == b[0] && IsSubsequence(a[1..], b[1..])) || IsSubsequence(a, b[1..])
  }

  predicate NoDuplicates<T(==)>(s: seq<T>)
  {
    forall i, j :: 0 <= i < j < |s| ==> s[i] != s[j]
  }

  /** `Array.prototype.filter` with the search's test: keeps the matching records, in order. */
  function Filter(rs: seq<Record>, query: string): (r: seq<Record>)
    ensures forall x :: x in r <==> x in rs && Matches(x, query)
    ensures IsSubsequence(r, rs)
    ensures |r| <= |rs|
    ensures NoDuplicates(rs) ==> NoDuplicates(r)
    decreases |rs|
  {
    if rs == [] then []
    else if Matches(rs[0], query) then [rs[0]] + Filter(rs[1..], query)
    else Filter(rs[1..], query)
  }

  /** The records `performSearch` hands to the display. */
  function Results(query: string): seq<Record>
  {
    Filter(Catalogue, query)
  }

  /**
   * A catalogue record is among the results exactly when its lower-cased
   * title or lower-cased artist contains the lower-cased query.
   */
  lemma ResultsMembership(query: string)
    ensures forall x :: x in Results(query) <==>
      x in Catalogue && ((exists i: nat :: OccursAt(Lower(x.title), Lower(query), i)) ||
                         (exists i: nat :: OccursAt(Lower(x.artist), Lower(query), i)))
  {
    forall x | x in Catalogue
      ensures Matches(x, query) <==>
        (exists i: nat :: OccursAt(Lower(x.title), Lower(query), i)) ||
        (exists i: nat :: OccursAt(Lower(x.artist), Lower(query), i))
    {
      IncludesIffOccurs(Lower(x.title), Lower(query));
      IncludesIffOccurs(Lower(x.artist), Lower(query));
    }
  }

  /** The results keep catalogue order, hold each record at most once, and number at most three. */
  lemma ResultsShape(query: string)
    ensures IsSubsequence(Results(query), Catalogue)
    ensures NoDuplicates(Results(query))
    ensures |Results(query)| <= 3
  {
  }

  /** The three catalogue records are pairwise different (their titles start differently). */
  lemma CatalogueDistinct()
    ensures NoDuplicates(Catalogue)
  {
  }

  /** The query's case does not matter: queries that lower-case alike keep the same records. */
  lemma {:induction false} FilterIgnoresQueryCase(rs: seq<Record>, q1: string, q2: string)
    requires Lower(q1) == Lower(q2)
    ensures Filter(rs, q1) == Filter(rs, q2)
    decreases |rs|
  {
    if rs != [] {
      FilterIgnoresQueryCase(rs[1..], q1, q2);
    }
  }

  // ---------------------------------------------------------------------
  // The results panel
  // ---------------------------------------------------------------------

  /** One row of the results panel: the title, then "artist • kind". */
  datatype Row = Row(title: string, detail: string)

  /** What the panel shows: the "No results found" message (`NoResults`), or one row per result. */
  datatype Content = NoResults | Rows(rows: seq<Row>)

  function RowOf(r: Record): Row
  {
    Row(r.title, r.artist + " \U{2022} " + r.kind)
  }

  /** `displaySearchResults`: the empty list shows the message, any other list one row per record, in order. */
  function Render(results: seq<Record>): (c: Content)
    ensures c.NoResults? <==> results == []
    ensures c.Rows? ==> |c.rows| == |results| &&
                        forall i :: 0 <= i < |results| ==>
                          c.rows[i].title == results[i].title &&
                          c.rows[i].detail == results[i].artist + " \U{2022} " + results[i].kind
  {
    if |results| == 0 then NoResults
    else Rows(seq(|results|, i requires 0 <= i < |results| => RowOf(results[i])))
  }

  /** The `#search-results` container: absent, or present with its content. */
  datatype Panel = Absent | Shown(content: Content)

  /**
   * What a timer expiry does with the query it captured: a query of two or
   * more characters is searched and the panel shows the results; a shorter
   * query removes the panel.
   */
  function Settle(query: string): Panel
  {
    if |query| >= 2 then Shown(Render(Results(query))) else Absent
  }

  // ---------------------------------------------------------------------
  // The debounced input handler
  // ---------------------------------------------------------------------

  /** A keystroke with the box's current value, or the expiry of the pending timer. */
  datatype SearchEvent = Input(query: string) | Fire

  /** The query whose timer is pending (if any) and the results panel. */
  datatype SearchState = SearchState(pending: Option<string>, panel: Panel)

  /**
   * One event: an input cancels the pending timer and schedules a new one for
   * its own query; a firing timer settles the query it captured. With no timer
   * pending nothing fires.
   */
  function Step(s: SearchState, e: SearchEvent): SearchState
  {
    match e
    case Input(q) => s.(pending := Some(q))
    case Fire => if s.pending.Some? then SearchState(None, Settle(s.pending.value)) else s
  }

  function Run(s: SearchState, es: seq<SearchEvent>): SearchState
    decreases |es|
  {
    if es == [] then s else Run(Step(s, es[0]), es[1..])
  }

  function Inputs(qs: seq<string>): (es: seq<SearchEvent>)
    ensures |es| == |qs| && forall i :: 0 <= i < |qs| ==> es[i] == Input(qs[i])
  {
    seq(|qs|, i requires 0 <= i < |qs| => Input(qs[i]))
  }

  lemma {:induction false} RunAppend(s: SearchState, a: seq<SearchEvent>, b: seq<SearchEvent>)
    ensures Run(s, a + b) == Run(Run(s, a), b)
    decreases |a|
  {
    if a == [] {
      assert a + b == b;
    } else {
      assert (a + b)[1..] == a[1..] + b;
      RunAppend(Step(s, a[0]), a[1..], b);
    }
  }

  /** A burst of keystrokes leaves the panel alone and only the last query pending. */
  lemma {:induction false} InputsKeepLastQuery(s: SearchState, qs: seq<string>)
    requires |qs| > 0
    ensures Run(s, Inputs(qs)) == SearchState(Some(qs[|qs| - 1]), s.panel)
    decreases |qs|
  {
    if |qs| > 1 {
      assert Inputs(qs)[1..] == Inputs(qs[1..]);
      InputsKeepLastQuery(Step(s, Input(qs[0])), qs[1..]);
    } else {
      assert Inputs(qs)[1..] == [];
    }
  }

  /**
   * After keystrokes q1..qn and one timer expiry, only qn is acted on: the
   * panel is what qn alone settles to, whatever was shown before, and no
   * timer is left pending.
   */
  lemma LastQueryWins(s: SearchState, qs: seq<string>)
    requires |qs| > 0
    ensures Run(s, Inputs(qs) + [Fire]) == SearchState(None, Settle(qs[|qs| - 1]))
  {
    RunAppend(s, Inputs(qs), [Fire]);
    InputsKeepLastQuery(s, qs);
  }

  /** The length gate: a query shorter than two characters never searches and always clears. */
  lemma FireGate(q: string, panel: Panel)
    ensures Step(SearchState(Some(q), panel), Fire).panel == Absent <==> |q| < 2
    ensures |q| >= 2 ==> Step(SearchState(Some(q), panel), Fire).panel == Shown(Render(Results(q)))
  {
  }

  /** The worked example: "beat" finds the two records that mention it, in catalogue order. */
  lemma BeatFindsTwo()
    ensures Results("beat") == [Catalogue[0], Catalogue[1]]
  {
    BeatMatchesFirstTwo();
    BeatMissesThird();
    assert Catalogue[1..][1..] == [Catalogue[2]];
    assert Filter([Catalogue[2]], "beat") == [];
  }

  lemma BeatMatchesFirstTwo()
    ensures Matches(Catalogue[0], "beat") && Matches(Catalogue[1], "beat")
  {
    assert Lower("beat") == "beat";
    assert Lower("Beat") == "beat";
    LowerSlice("CryptoBeats", 6, 10);
    assert "CryptoBeats"[6..10] == "Beat";
    assert OccursAt(Lower("CryptoBeats"), "beat", 6);
    IncludesIffOccurs(Lower("CryptoBeats"), "beat");
    LowerSlice("Blockchain Beats", 11, 15);
    assert "Blockchain Beats"[11..15] == "Beat";
    assert OccursAt(Lower("Blockchain Beats"), "beat", 11);
    IncludesIffOccurs(Lower("Blockchain Beats"), "beat");
  }

  /** Lower-casing commutes with taking a slice. */
  lemma LowerSlice(s: string, i: nat, j: nat)
    requires i <= j <= |s|
    ensures Lower(s)[i..j] == Lower(s[i..j])
  {
  }

  lemma BeatMissesThird()
    ensures !Matches(Catalogue[2], "beat")
  {
    assert Lower("beat") == "beat";
    assert 'b' !in Lower("NFT Symphony") && 'b' !in Lower("NFTunes");
    AbsentLeadNotIncluded(Lower("NFT Symphony"), "beat");
    AbsentLeadNotIncluded(Lower("NFTunes"), "beat");
  }

  /** A query whose first character appears nowhere in `s` is not included in `s`. */
  lemma {:induction false} AbsentLeadNotIncluded(s: string, q: string)
    requires |q| > 0 && q[0] !in s
    ensures !Includes(s, q)
    decreases |s|
  {
    if |q| <= |s| {
      assert s[..|q|][0] == s[0];
      AbsentLeadNotIncluded(s[1..], q);
    }
  }

  /**
   * One search box with its own pending timer; `OnInput` is the `input`
   * listener and `OnTimer` the expiry of the timer it scheduled.
   */
  class SearchBox {
    var pending: Option<string>
    var panel: Panel

    constructor ()
      ensures pending == None && panel == Absent
    {
      pending := None;
      panel := Absent;
    }

    function State(): SearchState
      reads this
    {
      SearchState(pending, panel)
    }

    method OnInput(query: string)
      modifies this
      ensures State() == Step(old(State()), Input(query))
      ensures panel == old(panel) && pending == Some(query)
    {
      pending := Some(query);
    }

    method OnTimer()
      modifies this
      ensures State() == Step(old(State()), Fire)
      ensures pending == None
    {
      if pending.Some? {
        var query := pending.value;
        pending := None;
        if |query| >= 2 {
          panel := Shown(Render(Results(query)));
        } else {
          panel := Absent;
        }
      }
    }
  }
}
