/**
  The history sidebar's own logic: the friendly title it derives from a file
  name, and the newest-first ordering of the saved analyses.
*/
module HistorySidebar {
  import opened Wrappers
  import opened Text
  import opened Records

  // ---------------------------------------------------------------------
  // File-name summary
  // ---------------------------------------------------------------------

  /** A `.` at `k` that starts a final extension: at least one character follows and none is `.` or `/`. */
  predicate ExtensionAt(s: string, k: nat) {
    k + 1 < |s| && s[k] == '.' && forall j :: k < j < |s| ==> s[j] != '.' && s[j] != '/'
  }

  /** Only the last `.` can start an extension, and the part after it then holds no `/`. */
  lemma ExtensionIsLastDot(s: string)
    ensures forall k: nat :: k < |s| && ExtensionAt(s, k) ==>
      k == LastIndexOf(s, '.') && '/' !in s[k + 1..]
  {
    forall k: nat | k < |s| && ExtensionAt(s, k)
      ensures k == LastIndexOf(s, '.') && '/' !in s[k + 1..]
    {
      var l := LastIndexOf(s, '.');
      assert s[k] == '.';
      assert forall j :: k + 1 <= j < |s| ==> s[j] == s[k + 1..][j - k - 1];
    }
  }

  /** `replace(/\.[^/.]+$/, '')`: drops a final extension, if there is one. */
  function StripExtension(s: string): (r: string)
    ensures r == s <==> forall k: nat :: k < |s| ==> !ExtensionAt(s, k)
    ensures r != s ==> |r| < |s| && r == s[..|r|] && ExtensionAt(s, |r|)
  {
    var k := LastIndexOf(s, '.');
    ExtensionIsLastDot(s);
    if 0 <= k && k + 1 < |s| && '/' !in s[k + 1..] then
      assert ExtensionAt(s, k) by {
        forall j | k < j < |s| ensures s[j] != '.' && s[j] != '/' {
          assert s[j] == s[k + 1..][j - k - 1];
        }
      }
      assert |s[..k]| == k;
      s[..k]
    else
      s
  }

  /** The characters `/[_-]+/` matches. */
  predicate IsSep(c: char) {
    c == '_' || c == '-'
  }

  /** `replace(/[_-]+/g, ' ')`: every maximal run of `_` and `-` becomes one space. */
  function Collapse(s: string): (r: string)
    ensures |r| <= |s|
    ensures forall i :: 0 <= i < |r| ==> !IsSep(r[i])
    decreases |s|
  {
    if s == [] then []
    else if IsSep(s[0]) then
      if |s| > 1 && IsSep(s[1]) then Collapse(s[1..]) else [' '] + Collapse(s[1..])
    else [s[0]] + Collapse(s[1..])
  }

  /** Text without separators passes through unchanged. */
  lemma {:induction false} CollapseIdentity(s: string)
    requires forall i :: 0 <= i < |s| ==> !IsSep(s[i])
    ensures Collapse(s) == s
    decreases |s|
  {
    if s != [] {
      CollapseIdentity(s[1..]);
      assert s == [s[0]] + s[1..];
    }
  }

  /** A whole run of separators becomes a single space. */
  lemma {:induction false} CollapseRun(run: string)
    requires |run| > 0 && forall i :: 0 <= i < |run| ==> IsSep(run[i])
    ensures Collapse(run) == [' ']
    decreases |run|
  {
    if |run| > 1 {
      CollapseRun(run[1..]);
    }
  }

  /** What the first character of a non-empty `s` contributes to `Collapse(s)`. */
  function CollapseHead(s: string): string
    requires s != []
  {
    if IsSep(s[0]) then (if |s| > 1 && IsSep(s[1]) then [] else [' ']) else [s[0]]
  }

  lemma CollapseStep(s: string)
    requires s != []
    ensures Collapse(s) == CollapseHead(s) + Collapse(s[1..])
  {
  }

  /** Appending text that does not continue a final separator run leaves the first contribution alone. */
  lemma CollapseHeadConcat(a: string, b: string)
    requires a != []
    requires b == [] || !(IsSep(a[|a| - 1]) && IsSep(b[0]))
    ensures CollapseHead(a + b) == CollapseHead(a)
  {
    if |a| > 1 {
      assert (a + b)[1] == a[1];
    } else if b != [] {
      assert (a + b)[1] == b[0];
    }
  }

  /** One step of collapsing `a + b`: the first character of `a` contributes what it contributes to `a` alone. */
  lemma CollapseConsConcat(a: string, b: string)
    requires a != []
    requires b == [] || !(IsSep(a[|a| - 1]) && IsSep(b[0]))
    ensures Collapse(a + b) == CollapseHead(a) + Collapse(a[1..] + b)
  {
    assert (a + b)[1..] == a[1..] + b;
    CollapseHeadConcat(a, b);
    CollapseStep(a + b);
  }

  /** Collapsing distributes over a concatenation that does not join two separators. */
  lemma {:induction false} CollapseConcat(a: string, b: string)
    requires a == [] || b == [] || !(IsSep(a[|a| - 1]) && IsSep(b[0]))
    ensures Collapse(a + b) == Collapse(a) + Collapse(b)
    decreases |a|
  {
    if a == [] {
      assert a + b == b;
    } else {
      var t := a[1..];
      CollapseConsConcat(a, b);
      CollapseStep(a);
      if t != [] {
        assert t[|t| - 1] == a[|a| - 1];
      }
      CollapseConcat(t, b);
      AppendAssociates(CollapseHead(a), Collapse(t), Collapse(b));
    }
  }

  /** Regrouping a concatenation; a proof step for `CollapseConcat`, not a property of the page. */
  lemma AppendAssociates(x: string, y: string, z: string)
    ensures x + (y + z) == (x + y) + z
  {
  }

  /** Each maximal separator run, between text that does not continue it, turns into exactly one space. */
  lemma CollapseRunToSpace(a: string, run: string, b: string)
    requires a == [] || !IsSep(a[|a| - 1])
    requires |run| > 0 && forall i :: 0 <= i < |run| ==> IsSep(run[i])
    requires b == [] || !IsSep(b[0])
    ensures Collapse(a + run + b) == Collapse(a) + [' '] + Collapse(b)
  {
    CollapseConcat(a, run);
    CollapseRun(run);
    assert (a + run)[|a + run| - 1] == run[|run| - 1];
    CollapseConcat(a + run, b);
  }

  /** `word.charAt(0).toUpperCase() + word.slice(1)`. */
  function CapWord(w: string): (r: string)
    ensures |r| == |w|
    ensures w != [] ==> r[0] == ToUpper(w[0]) && r[1..] == w[1..]
  {
    if w == [] then [] else [ToUpper(w[0])] + w[1..]
  }

  function MapCap(words: seq<string>): (r: seq<string>)
    ensures |r| == |words| && forall i :: 0 <= i < |words| ==> r[i] == CapWord(words[i])
  {
    seq(|words|, i requires 0 <= i < |words| => CapWord(words[i]))
  }

  /** `.split(' ').map(...).join(' ')`: the first letter of every space-separated word upper-cased. */
  function CapitalizeWords(s: string): string {
    Join(MapCap(Split(s, ' ')), [' '])
  }

  /**
    The same capitalisation written character by character: a character is
    upper-cased when it starts the text or follows a space.
  */
  function CapFrom(s: string, atStart: bool): (r: string)
    ensures |r| == |s|
    decreases |s|
  {
    if s == [] then []
    else [if atStart then ToUpper(s[0]) else s[0]] + CapFrom(s[1..], s[0] == ' ')
  }

  /** Split and capitalise, with the first piece capitalised only when `atStart`. */
  function CapPieces(s: string, atStart: bool): string {
    var parts := Split(s, ' ');
    Join([if atStart then CapWord(parts[0]) else parts[0]] + MapCap(parts[1..]), [' '])
  }

  lemma JoinConsHead(c: char, x: string, rest: seq<string>, sep: string)
    ensures Join([[c] + x] + rest, sep) == [c] + Join([x] + rest, sep)
  {
    var p := [[c] + x] + rest;
    var q := [x] + rest;
    if rest != [] {
      assert p[1..] == rest && q[1..] == rest;
    }
  }

  /** A leading space ends an empty first piece: it is kept and the next piece starts a word. */
  lemma CapPiecesSpace(s: string, atStart: bool)
    requires s != [] && s[0] == ' '
    ensures CapPieces(s, atStart) == [' '] + CapPieces(s[1..], true)
  {
    var rest := Split(s[1..], ' ');
    var parts := Split(s, ' ');
    assert MapCap(rest) == [CapWord(rest[0])] + MapCap(rest[1..]);
    assert parts == [[]] + rest;
    assert parts[1..] == rest;
    var first: string := [];
    assert ([first] + MapCap(rest))[1..] == MapCap(rest);
  }

  /** Any other leading character belongs to the first piece, capitalised only when `atStart`. */
  lemma CapPiecesLetter(s: string, atStart: bool)
    requires s != [] && s[0] != ' '
    ensures CapPieces(s, atStart) == [if atStart then ToUpper(s[0]) else s[0]] + CapPieces(s[1..], false)
  {
    var rest := Split(s[1..], ' ');
    var parts := Split(s, ' ');
    assert MapCap(rest) == [CapWord(rest[0])] + MapCap(rest[1..]);
    assert parts == [[s[0]] + rest[0]] + rest[1..];
    assert parts[1..] == rest[1..];
    var c := if atStart then ToUpper(s[0]) else s[0];
    assert (if atStart then CapWord(parts[0]) else parts[0]) == [c] + rest[0];
    JoinConsHead(c, rest[0], MapCap(rest[1..]), [' ']);
  }

  lemma {:induction false} CapPiecesRef(s: string, atStart: bool)
    ensures CapPieces(s, atStart) == CapFrom(s, atStart)
    decreases |s|
  {
    if s != [] {
      if s[0] == ' ' {
        CapPiecesSpace(s, atStart);
        CapPiecesRef(s[1..], true);
      } else {
        CapPiecesLetter(s, atStart);
        CapPiecesRef(s[1..], false);
      }
    }
  }

  /** Capitalising the words upper-cases exactly the characters that start the text or follow a space. */
  lemma CapitalizeWordsSpec(s: string)
    ensures |CapitalizeWords(s)| == |s|
    ensures forall i :: 0 <= i < |s| ==>
      CapitalizeWords(s)[i] == if i == 0 || s[i - 1] == ' ' then ToUpper(s[i]) else s[i]
  {
    CapPiecesRef(s, true);
    assert CapitalizeWords(s) == CapPieces(s, true) by {
      var parts := Split(s, ' ');
      assert MapCap(parts) == [CapWord(parts[0])] + MapCap(parts[1..]);
    }
    CapFromSpec(s, true);
  }

  lemma {:induction false} CapFromSpec(s: string, atStart: bool)
    ensures forall i :: 0 <= i < |s| ==>
      CapFrom(s, atStart)[i] == if (if i == 0 then atStart else s[i - 1] == ' ') then ToUpper(s[i]) else s[i]
    decreases |s|
  {
    if s != [] {
      CapFromSpec(s[1..], s[0] == ' ');
      var r := CapFrom(s, atStart);
      forall i | 1 <= i < |s|
        ensures r[i] == if s[i - 1] == ' ' then ToUpper(s[i]) else s[i]
      {
        assert r[i] == CapFrom(s[1..], s[0] == ' ')[i - 1];
        assert s[1..][i - 1] == s[i];
        if i > 1 { assert s[1..][i - 2] == s[i - 1]; }
      }
    }
  }

  /** The title shown for a saved analysis: "File" when there is no name, else the tidied name. */
  function SummarizeFileName(fileName: Option<string>): (r: string)
    ensures fileName.None? || fileName.value == [] ==> r == "File"
  {
    if fileName.None? || fileName.value == [] then "File"
    else CapitalizeWords(Collapse(StripExtension(fileName.value)))
  }

  /** A title never shows a separator, and is no longer than the name it came from. */
  lemma SummaryShape(name: string)
    requires name != []
    ensures |SummarizeFileName(Some(name))| <= |name|
    ensures forall i :: 0 <= i < |SummarizeFileName(Some(name))| ==> !IsSep(SummarizeFileName(Some(name))[i])
  {
    var c := Collapse(StripExtension(name));
    CapitalizeWordsSpec(c);
    var r := SummarizeFileName(Some(name));
    assert r == CapitalizeWords(c);
    forall i | 0 <= i < |r| ensures !IsSep(r[i]) {
      assert !IsSep(c[i]);
      assert r[i] == if i == 0 || c[i - 1] == ' ' then ToUpper(c[i]) else c[i];
    }
  }

  // ---------------------------------------------------------------------
  // Newest-first ordering
  // ---------------------------------------------------------------------

  /** No record is newer than one listed before it. */
  predicate NewestFirst(h: seq<AnalysisRecord>) {
    forall i, j :: 0 <= i < j < |h| ==> h[i].createdAt >= h[j].createdAt
  }

  /** Places `x` before the first record that is not newer than it. */
  function Insert(x: AnalysisRecord, s: seq<AnalysisRecord>): (r: seq<AnalysisRecord>)
    ensures |r| == |s| + 1
    ensures forall i :: 0 <= i < |r| ==> r[i] == x || r[i] in s
    decreases |s|
  {
    if s == [] || x.createdAt >= s[0].createdAt then [x] + s
    else [s[0]] + Insert(x, s[1..])
  }

  /**
    `[...history].sort((a, b) => b - a)` on the creation times. The sort is
    stable, so it is modelled as an insertion sort that keeps records with
    equal times in their original order.
  */
  function SortByNewest(h: seq<AnalysisRecord>): (r: seq<AnalysisRecord>)
    decreases |h|
  {
    if h == [] then [] else Insert(h[0], SortByNewest(h[1..]))
  }

  lemma {:induction false} InsertPermutes(x: AnalysisRecord, s: seq<AnalysisRecord>)
    ensures multiset(Insert(x, s)) == multiset(s) + multiset{x}
    decreases |s|
  {
    if s != [] && x.createdAt < s[0].createdAt {
      InsertPermutes(x, s[1..]);
      assert s == [s[0]] + s[1..];
    }
  }

  lemma {:induction false} InsertSorted(x: AnalysisRecord, s: seq<AnalysisRecord>)
    requires NewestFirst(s)
    ensures NewestFirst(Insert(x, s))
    decreases |s|
  {
    if s != [] && x.createdAt < s[0].createdAt {
      var tail := Insert(x, s[1..]);
      InsertSorted(x, s[1..]);
      forall j | 0 <= j < |tail| ensures s[0].createdAt >= tail[j].createdAt {
        if tail[j] != x {
          var k :| 0 <= k < |s[1..]| && s[1..][k] == tail[j];
          assert s[1..][k] == s[k + 1];
        }
      }
    }
  }

  /** The sorted history lists the same records, newest first. */
  lemma {:induction false} SortByNewestSpec(h: seq<AnalysisRecord>)
    ensures NewestFirst(SortByNewest(h))
    ensures multiset(SortByNewest(h)) == multiset(h)
    ensures |SortByNewest(h)| == |h|
    decreases |h|
  {
    if h != [] {
      SortByNewestSpec(h[1..]);
      InsertSorted(h[0], SortByNewest(h[1..]));
      InsertPermutes(h[0], SortByNewest(h[1..]));
      assert h == [h[0]] + h[1..];
    }
  }

  /** The records created at time `t`, in list order. */
  function CreatedAt(h: seq<AnalysisRecord>, t: int): (r: seq<AnalysisRecord>)
    decreases |h|
  {
    if h == [] then []
    else (if h[0].createdAt == t then [h[0]] else []) + CreatedAt(h[1..], t)
  }

  lemma {:induction false} InsertStable(x: AnalysisRecord, s: seq<AnalysisRecord>, t: int)
    ensures CreatedAt(Insert(x, s), t) == (if x.createdAt == t then [x] else []) + CreatedAt(s, t)
    decreases |s|
  {
    var xs := if x.createdAt == t then [x] else [];
    if s != [] && x.createdAt < s[0].createdAt {
      var tail := Insert(x, s[1..]);
      InsertStable(x, s[1..], t);
      assert ([s[0]] + tail)[1..] == tail;
      assert CreatedAt(Insert(x, s), t) == (if s[0].createdAt == t then [s[0]] else []) + CreatedAt(tail, t);
      if x.createdAt == t {
        assert CreatedAt(s, t) == CreatedAt(s[1..], t);
      } else {
        assert xs + CreatedAt(s, t) == CreatedAt(s, t);
      }
    } else {
      assert ([x] + s)[1..] == s;
    }
  }

  /** Records created at the same time keep the order they had in the history. */
  lemma {:induction false} SortByNewestStable(h: seq<AnalysisRecord>, t: int)
    ensures CreatedAt(SortByNewest(h), t) == CreatedAt(h, t)
    decreases |h|
  {
    if h != [] {
      SortByNewestStable(h[1..], t);
      InsertStable(h[0], SortByNewest(h[1..]), t);
    }
  }
}
