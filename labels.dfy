/**
 * The dataset label scripts: remap_labels.py rewrites the class id of every
 * YOLO label line (0 becomes 4, 1 becomes 5), count_class.py counts the
 * annotations per class over the train/test/valid splits, and
 * compute_prune_targets.py counts the files holding one class and splits
 * each count into a keep and a delete share. A labels directory is the
 * sequence of its files in the order glob lists them; a split without a
 * labels directory has no entry in the dataset map.
 */
module Labels {
  import opened Wrappers
  import opened Text

  // ======================================================== Python strings

  /** str.isspace: the characters str.split() separates words at. */
  predicate IsSpace(c: char)
  {
    c == ' ' || '\t' <= c <= '\r' || '\U{1C}' <= c <= '\U{1F}' || c == '\U{85}' || c == '\U{A0}'
    || c == '\U{1680}' || '\U{2000}' <= c <= '\U{200A}' || c == '\U{2028}' || c == '\U{2029}'
    || c == '\U{202F}' || c == '\U{205F}' || c == '\U{3000}'
  }

  /** The line boundaries of str.splitlines (a "\r\n" pair counts as one). */
  predicate IsLineBreak(c: char)
  {
    '\n' <= c <= '\r' || '\U{1C}' <= c <= '\U{1E}' || c == '\U{85}' || c == '\U{2028}' || c == '\U{2029}'
  }

  predicate NoSpace(s: string) { forall i :: 0 <= i < |s| ==> !IsSpace(s[i]) }
  predicate NoBreak(s: string) { forall i :: 0 <= i < |s| ==> !IsLineBreak(s[i]) }

  /** Length of the leading run of non-space characters. */
  function WordEnd(s: string): (k: nat)
    ensures k <= |s| && NoSpace(s[..k]) && (k == |s| || IsSpace(s[k]))
  {
    if s == [] || IsSpace(s[0]) then 0
    else
      var k := 1 + WordEnd(s[1..]);
      assert s[..k] == [s[0]] + s[1..][..k - 1];
      k
  }

  /** str.split() without arguments: the maximal runs of non-space characters. */
  function Words(s: string): (r: seq<string>)
    ensures forall i :: 0 <= i < |r| ==> r[i] != [] && NoSpace(r[i])
    decreases |s|
  {
    if s == [] then []
    else if IsSpace(s[0]) then Words(s[1..])
    else
      var k := WordEnd(s);
      [s[..k]] + Words(s[k..])
  }

  /** Length of the leading run of characters that are no line boundary. */
  function LineEnd(s: string): (k: nat)
    ensures k <= |s| && NoBreak(s[..k]) && (k == |s| || IsLineBreak(s[k]))
  {
    if s == [] || IsLineBreak(s[0]) then 0
    else
      var k := 1 + LineEnd(s[1..]);
      assert s[..k] == [s[0]] + s[1..][..k - 1];
      k
  }

  /** str.splitlines(): the lines without their boundaries, and no empty last line. */
  function Lines(s: string): (r: seq<string>)
    ensures forall i :: 0 <= i < |r| ==> NoBreak(r[i])
    decreases |s|
  {
    if s == [] then []
    else
      var k := LineEnd(s);
      if k == |s| then [s]
      else
        var next := if s[k] == '\r' && k + 1 < |s| && s[k + 1] == '\n' then k + 2 else k + 1;
        [s[..k]] + Lines(s[next..])
  }

  lemma WordEndOf(w: string, rest: string)
    requires NoSpace(w) && (rest == [] || IsSpace(rest[0]))
    ensures WordEnd(w + rest) == |w|
    decreases |w|
  {
    if w != [] {
      assert (w + rest)[1..] == w[1..] + rest;
      WordEndOf(w[1..], rest);
    }
  }

  lemma LineEndOf(l: string, rest: string)
    requires NoBreak(l) && (rest == [] || IsLineBreak(rest[0]))
    ensures LineEnd(l + rest) == |l|
    decreases |l|
  {
    if l != [] {
      assert (l + rest)[1..] == l[1..] + rest;
      LineEndOf(l[1..], rest);
    }
  }

  /** Splitting words joined by single spaces gives the words back. */
  lemma {:induction false} WordsOfJoin(ws: seq<string>)
    requires forall i :: 0 <= i < |ws| ==> ws[i] != [] && NoSpace(ws[i])
    ensures Words(Join(ws, " ")) == ws
  {
    if |ws| == 1 {
      WordEndOf(ws[0], []);
      assert ws[0] + [] == ws[0];
      assert ws[0][|ws[0]|..] == [];
    } else if |ws| > 1 {
      var w, tail := ws[0], Join(ws[1..], " ");
      var s := w + " " + tail;
      assert s == w + (" " + tail);
      WordEndOf(w, " " + tail);
      assert s[..|w|] == w;
      assert s[|w|..] == " " + tail;
      assert (" " + tail)[1..] == tail;
      WordsOfJoin(ws[1..]);
    }
  }

  /** Splitting non-empty lines joined by "\n" gives the lines back. */
  lemma {:induction false} LinesOfJoin(ls: seq<string>)
    requires forall i :: 0 <= i < |ls| ==> ls[i] != [] && NoBreak(ls[i])
    ensures Lines(Join(ls, "\n")) == ls
  {
    if |ls| == 1 {
      LineEndOf(ls[0], []);
      assert ls[0] + [] == ls[0];
    } else if |ls| > 1 {
      var l, tail := ls[0], Join(ls[1..], "\n");
      var s := l + "\n" + tail;
      assert s == l + ("\n" + tail);
      LineEndOf(l, "\n" + tail);
      assert s[..|l|] == l;
      assert s[|l|] == '\n';
      assert s[|l| + 1..] == tail;
      LinesOfJoin(ls[1..]);
      assert tail != [] by { JoinNonEmpty(ls[1..], "\n"); }
    }
  }

  lemma {:induction false} JoinNonEmpty(parts: seq<string>, sep: string)
    requires parts != [] && parts[0] != []
    ensures Join(parts, sep) != []
  {
    if |parts| > 1 {
      assert |Join(parts, sep)| >= |parts[0]|;
    }
  }

  /** Words joined by spaces hold no line boundary (every boundary is a space, a space is none). */
  lemma {:induction false} JoinWordsNoBreak(ws: seq<string>)
    requires forall i :: 0 <= i < |ws| ==> NoSpace(ws[i])
    ensures NoBreak(Join(ws, " "))
    decreases |ws|
  {
    if |ws| == 1 {
      assert NoBreak(ws[0]) by {
        forall i | 0 <= i < |ws[0]| ensures !IsLineBreak(ws[0][i]) { assert !IsSpace(ws[0][i]); }
      }
    } else if |ws| > 1 {
      JoinWordsNoBreak([ws[0]]);
      JoinWordsNoBreak(ws[1..]);
      var a, b := ws[0], Join(ws[1..], " ");
      forall i | 0 <= i < |a + " " + b| ensures !IsLineBreak((a + " " + b)[i]) {
        if i < |a| {
          assert (a + " " + b)[i] == a[i];
        } else if i > |a| {
          assert (a + " " + b)[i] == b[i - |a| - 1];
        }
      }
    }
  }

  // ======================================================== remap_labels.py

  const Splits := ["train", "test", "valid"]

  /** CLASS_MAP.get(id, id): "0" becomes "4", "1" becomes "5", anything else stays. */
  function RemapId(id: string): (r: string)
    ensures r != "0" && r != "1"
    ensures id != "0" && id != "1" ==> r == id
  {
    if id == "0" then "4" else if id == "1" then "5" else id
  }

  /** A remapped word is still a word. */
  lemma RemapIdWord(w: string)
    requires w != [] && NoSpace(w)
    ensures RemapId(w) != [] && NoSpace(RemapId(w))
  {
    if w == "0" || w == "1" {
      assert !IsSpace('4') && !IsSpace('5');
    }
  }

  /** A label line with its class id remapped and single spaces; None for a blank line. */
  function RemapLine(line: string): Option<string>
  {
    var parts := Words(line);
    if parts == [] then None else Some(Join([RemapId(parts[0])] + parts[1..], " "))
  }

  /** The new lines of a file: one per non-blank line, in order. */
  function RemapLines(lines: seq<string>): seq<string>
  {
    if lines == [] then []
    else
      var r := RemapLine(lines[|lines| - 1]);
      RemapLines(lines[..|lines| - 1]) + (if r.Some? then [r.value] else [])
  }

  /** The text write_text stores: the new lines joined by "\n", no newline at the end. */
  function Remapped(text: string): string
  {
    Join(RemapLines(Lines(text)), "\n")
  }

  /** The words of a remapped line: the old words with the first one remapped. */
  lemma RemappedLineWords(line: string)
    requires Words(line) != []
    ensures var parts := Words(line);
      RemapLine(line).Some? && RemapLine(line).value != [] && NoBreak(RemapLine(line).value)
      && Words(RemapLine(line).value) == [RemapId(parts[0])] + parts[1..]
  {
    var parts := Words(line);
    var ws := [RemapId(parts[0])] + parts[1..];
    forall i | 0 <= i < |ws|
      ensures ws[i] != [] && NoSpace(ws[i])
    {
      if i == 0 {
        RemapIdWord(parts[0]);
      } else {
        assert ws[i] == parts[i];
      }
    }
    WordsOfJoin(ws);
    JoinWordsNoBreak(ws);
    JoinNonEmpty(ws, " ");
  }

  /** Every line remap writes is non-empty and holds no line boundary. */
  predicate Writable(ls: seq<string>)
  {
    forall i :: 0 <= i < |ls| ==> ls[i] != [] && NoBreak(ls[i])
  }

  lemma {:induction false} RemapLinesShape(lines: seq<string>)
    ensures Writable(RemapLines(lines))
  {
    if lines != [] {
      RemapLinesShape(lines[..|lines| - 1]);
      var init, last := lines[..|lines| - 1], lines[|lines| - 1];
      if Words(last) != [] {
        RemappedLineWords(last);
        var done, x := RemapLines(init), RemapLine(last).value;
        assert RemapLines(lines) == done + [x];
        assert x != [] && NoBreak(x);
        assert Writable(done);
        forall i | 0 <= i < |done + [x]| ensures (done + [x])[i] != [] && NoBreak((done + [x])[i]) {
          if i < |done| {
            assert (done + [x])[i] == done[i];
          } else {
            assert (done + [x])[i] == x;
          }
        }
      } else {
        assert RemapLines(lines) == RemapLines(init) + [];
      }
    }
  }

  /** Reading a remapped file back yields exactly the lines remap wrote. */
  lemma LinesOfRemapped(text: string)
    ensures Lines(Remapped(text)) == RemapLines(Lines(text))
  {
    RemapLinesShape(Lines(text));
    LinesOfJoin(RemapLines(Lines(text)));
  }

  /** A line remap wrote is left as it is by a second remap. */
  lemma RemapLineStable(line: string)
    requires Words(line) != []
    ensures RemapLine(RemapLine(line).value) == RemapLine(line)
  {
    RemappedLineWords(line);
    var ws := [RemapId(Words(line)[0])] + Words(line)[1..];
    assert ws[1..] == Words(line)[1..];
  }

  lemma {:induction false} RemapLinesStable(lines: seq<string>)
    ensures RemapLines(RemapLines(lines)) == RemapLines(lines)
  {
    if lines != [] {
      var init, last := lines[..|lines| - 1], lines[|lines| - 1];
      RemapLinesStable(init);
      var done := RemapLines(init);
      if Words(last) != [] {
        RemapLineStable(last);
        var x := RemapLine(last).value;
        assert (done + [x])[..|done|] == done;
      } else {
        assert RemapLines(lines) == done + [] == done;
      }
    }
  }

  /** Running the remap a second time changes nothing. */
  lemma RemapIdempotent(text: string)
    ensures Remapped(Remapped(text)) == Remapped(text)
  {
    LinesOfRemapped(text);
    RemapLinesStable(Lines(text));
  }

  /** After a remap no line's class id is "0" or "1". */
  lemma NoOldIdsAfterRemap(text: string)
    ensures forall l :: l in Lines(Remapped(text)) ==> Words(l) != [] && Words(l)[0] != "0" && Words(l)[0] != "1"
  {
    LinesOfRemapped(text);
    var written := RemapLines(Lines(text));
    forall l | l in written
      ensures Words(l) != [] && Words(l)[0] != "0" && Words(l)[0] != "1"
    {
      RemapLinesWords(Lines(text), l);
    }
  }

  lemma {:induction false} RemapLinesWords(lines: seq<string>, l: string)
    requires l in RemapLines(lines)
    ensures Words(l) != [] && Words(l)[0] != "0" && Words(l)[0] != "1"
  {
    var init, last := lines[..|lines| - 1], lines[|lines| - 1];
    if l in RemapLines(init) {
      RemapLinesWords(init, l);
    } else {
      RemappedLineWords(last);
      assert l == RemapLine(last).value;
    }
  }

  /** remap_labels.py on one file's text: the loop that builds new_lines. */
  method RemapText(text: string) returns (out: string)
    ensures out == Remapped(text)
  {
    var lines := Lines(text);
    var newLines: seq<string> := [];
    var i := 0;
    while i < |lines|
      invariant 0 <= i <= |lines|
      invariant newLines == RemapLines(lines[..i])
    {
      assert lines[..i + 1][..i] == lines[..i];
      var parts := Words(lines[i]);
      if parts != [] {
        var oldClass := parts[0];
        var newClass := RemapId(oldClass);
        newLines := newLines + [Join([newClass] + parts[1..], " ")];
      }
      i := i + 1;
    }
    assert lines[..|lines|] == lines;
    out := Join(newLines, "\n");
  }

  /** One entry of a labels directory. */
  datatype LabelFile = LabelFile(name: string, text: string)

  /** glob("*.txt"): the entries whose name ends in ".txt". */
  predicate IsTxt(f: LabelFile)
  {
    |f.name| >= 4 && f.name[|f.name| - 4..] == ".txt"
  }

  function RemapFile(f: LabelFile): LabelFile
  {
    if IsTxt(f) then f.(text := Remapped(f.text)) else f
  }

  lemma RemapFileIdempotent(f: LabelFile)
    ensures RemapFile(RemapFile(f)) == RemapFile(f)
  {
    RemapIdempotent(f.text);
  }

  /** The dataset on disk: each split's labels directory, absent when it does not exist. */
  class Dataset {
    var labels: map<string, seq<LabelFile>>

    constructor (labels: map<string, seq<LabelFile>>)
      ensures this.labels == labels
    {
      this.labels := labels;
    }

    /**
     * remap_labels.py: every .txt file of train, test and valid is rewritten
     * remapped; a missing split is skipped and nothing else is touched.
     */
    method RemapLabels()
      modifies this
      ensures labels.Keys == old(labels).Keys
      ensures forall s :: s in labels ==> |labels[s]| == |old(labels)[s]|
      ensures forall s, i :: s in labels && 0 <= i < |labels[s]| ==>
        labels[s][i] == (if s in Splits then RemapFile(old(labels)[s][i]) else old(labels)[s][i])
    {
      var k := 0;
      while k < |Splits|
        invariant 0 <= k <= |Splits|
        invariant labels.Keys == old(labels).Keys
        invariant forall s :: s in labels ==> |labels[s]| == |old(labels)[s]|
        invariant forall s, i :: s in labels && 0 <= i < |labels[s]| ==>
          labels[s][i] == (if s in Splits[..k] then RemapFile(old(labels)[s][i]) else old(labels)[s][i])
      {
        var split := Splits[k];
        assert forall s :: s in Splits[..k + 1] <==> s in Splits[..k] || s == split;
        assert split !in Splits[..k];
        if split in labels {
          var files := RemapDir(labels[split]);
          labels := labels[split := files];
        }
        k := k + 1;
      }
      assert Splits[..|Splits|] == Splits;
    }
  }

  /** The per-file loop of one split: each .txt file is rewritten in place. */
  method RemapDir(dir: seq<LabelFile>) returns (files: seq<LabelFile>)
    ensures |files| == |dir| && forall i :: 0 <= i < |dir| ==> files[i] == RemapFile(dir[i])
  {
    files := dir;
    for i := 0 to |files|
      invariant |files| == |dir|
      invariant forall j :: 0 <= j < |dir| ==> files[j] == (if j < i then RemapFile(dir[j]) else dir[j])
    {
      if IsTxt(files[i]) {
        var out := RemapText(files[i].text);
        files := files[i := files[i].(text := out)];
      }
    }
  }

  // ========================================================= count_class.py

  /** The class id of each non-blank line, in order. */
  function FirstWords(lines: seq<string>): seq<string>
  {
    if lines == [] then []
    else FirstWords(lines[..|lines| - 1]) + ClassOf(lines[|lines| - 1])
  }

  /** The class id of one line, when it has a first word. */
  function ClassOf(line: string): (r: seq<string>)
    ensures |r| <= 1
  {
    var parts := Words(line);
    if parts == [] then [] else [parts[0]]
  }

  lemma FirstWordsStep(lines: seq<string>, j: int)
    requires 0 <= j < |lines|
    ensures FirstWords(lines[..j + 1]) == FirstWords(lines[..j]) + ClassOf(lines[j])
  {
    assert lines[..j + 1][..j] == lines[..j];
  }

  /** The counts after adding the class id of each line in turn to before. */
  function Tally(before: multiset<string>, lines: seq<string>): multiset<string>
  {
    if lines == [] then before else Tally(before, lines[..|lines| - 1]) + multiset(ClassOf(lines[|lines| - 1]))
  }

  /** Adding the lines one at a time counts exactly their class ids. */
  lemma {:induction false} TallyCounts(before: multiset<string>, lines: seq<string>)
    ensures Tally(before, lines) == before + multiset(FirstWords(lines))
  {
    if lines != [] {
      var n := |lines|;
      var init := lines[..n - 1];
      var found := ClassOf(lines[n - 1]);
      var words := FirstWords(init);
      assert Tally(before, lines) == Tally(before, init) + multiset(found);
      TallyCounts(before, init);
      UnionOfAppend(before, words, found);
      FirstWordsStep(lines, n - 1);
      assert lines[..n] == lines;
      assert FirstWords(lines) == words + found;
    }
  }

  /** Counting a concatenation adds the counts of its parts. */
  lemma UnionOfAppend(before: multiset<string>, xs: seq<string>, ys: seq<string>)
    ensures before + multiset(xs) + multiset(ys) == before + multiset(xs + ys)
  {
  }

  /** One file's annotations: its class ids, each once per non-blank line. */
  function Annotations(text: string): multiset<string>
  {
    multiset(FirstWords(Lines(text)))
  }

  function DirAnnotations(files: seq<LabelFile>): multiset<string>
  {
    if files == [] then multiset{}
    else
      var last := files[|files| - 1];
      DirAnnotations(files[..|files| - 1]) + (if IsTxt(last) then Annotations(last.text) else multiset{})
  }

  /** The annotations of the listed splits that exist. */
  function SplitAnnotations(labels: map<string, seq<LabelFile>>, splits: seq<string>): multiset<string>
  {
    if splits == [] then multiset{}
    else
      var s := splits[|splits| - 1];
      SplitAnnotations(labels, splits[..|splits| - 1]) + (if s in labels then DirAnnotations(labels[s]) else multiset{})
  }

  function MapIds(ids: seq<string>): (r: seq<string>)
    ensures |r| == |ids| && forall i :: 0 <= i < |ids| ==> r[i] == RemapId(ids[i])
  {
    seq(|ids|, i requires 0 <= i < |ids| => RemapId(ids[i]))
  }

  lemma {:induction false} FirstWordsRemapped(lines: seq<string>)
    ensures FirstWords(RemapLines(lines)) == MapIds(FirstWords(lines))
  {
    if lines != [] {
      var init, last := lines[..|lines| - 1], lines[|lines| - 1];
      FirstWordsRemapped(init);
      var done := RemapLines(init);
      if Words(last) != [] {
        RemappedLineWords(last);
        var x := RemapLine(last).value;
        assert (done + [x])[..|done|] == done;
        assert MapIds(FirstWords(lines)) == MapIds(FirstWords(init)) + [RemapId(Words(last)[0])];
      } else {
        assert RemapLines(lines) == done + [] == done;
        assert FirstWords(lines) == FirstWords(init) + [] == FirstWords(init);
      }
    }
  }

  /**
   * Counting after a remap: every "0" annotation is counted as "4", every
   * "1" as "5", and the total does not change.
   */
  lemma CountsAfterRemap(text: string)
    ensures var before, after := Annotations(text), Annotations(Remapped(text));
      after == multiset(MapIds(FirstWords(Lines(text))))
      && |after| == |before| && after["0"] == 0 && after["1"] == 0
  {
    LinesOfRemapped(text);
    FirstWordsRemapped(Lines(text));
    var ids := MapIds(FirstWords(Lines(text)));
    assert "0" !in ids && "1" !in ids;
  }

  /** count_class.py's loops: one Counter increment per non-blank line of every .txt file. */
  method CountClasses(labels: map<string, seq<LabelFile>>) returns (counts: multiset<string>)
    ensures counts == SplitAnnotations(labels, Splits)
  {
    counts := multiset{};
    for k := 0 to |Splits|
      invariant counts == SplitAnnotations(labels, Splits[..k])
    {
      assert Splits[..k + 1][..k] == Splits[..k];
      var split := Splits[k];
      if split !in labels {
        continue;
      }
      counts := CountDir(labels[split], counts);
    }
    assert Splits[..|Splits|] == Splits;
  }

  /** The file loop of one split. */
  method CountDir(files: seq<LabelFile>, before: multiset<string>) returns (counts: multiset<string>)
    ensures counts == before + DirAnnotations(files)
  {
    counts := before;
    for i := 0 to |files|
      invariant counts == before + DirAnnotations(files[..i])
    {
      assert files[..i + 1][..i] == files[..i];
      if !IsTxt(files[i]) {
        continue;
      }
      counts := CountFile(files[i].text, counts);
    }
    assert files[..|files|] == files;
  }

  /** One file: its text split into lines, then counted line by line. */
  method CountFile(text: string, before: multiset<string>) returns (counts: multiset<string>)
    ensures counts == before + Annotations(text)
  {
    counts := CountLines(Lines(text), before);
  }

  /** The line loop of one file: blank lines are skipped, others add their class id. */
  method CountLines(lines: seq<string>, before: multiset<string>) returns (counts: multiset<string>)
    ensures counts == before + multiset(FirstWords(lines))
  {
    counts := before;
    var j := 0;
    while j < |lines|
      invariant 0 <= j <= |lines|
      invariant counts == Tally(before, lines[..j])
    {
      assert lines[..j + 1][..j] == lines[..j];
      counts := counts + multiset(ClassOf(lines[j]));
      j := j + 1;
    }
    assert lines[..|lines|] == lines;
    TallyCounts(before, lines);
  }

  /** Python's int() on a class id: an optional sign and ASCII digits. */
  function PyInt(s: string): Option<int>
  {
    var digits := if s != [] && (s[0] == '-' || s[0] == '+') then s[1..] else s;
    if digits == [] || !AllDigits(digits) then None
    else if s[0] == '-' then Some(-(DigitsValue(digits) as int))
    else Some(DigitsValue(digits) as int)
  }

  function SortKey(id: string): int
  {
    if PyInt(id).Some? then PyInt(id).value else 0
  }

  predicate SortedByKey(ids: seq<string>)
  {
    forall i, j :: 0 <= i < j < |ids| ==> SortKey(ids[i]) <= SortKey(ids[j])
  }

  predicate Distinct(ids: seq<string>)
  {
    forall i, j :: 0 <= i < j < |ids| ==> ids[i] != ids[j]
  }

  /** Insert id after every id whose key is not larger. */
  function Insert(ids: seq<string>, id: string): seq<string>
  {
    if ids == [] then [id]
    else if SortKey(id) < SortKey(ids[0]) then [id] + ids
    else [ids[0]] + Insert(ids[1..], id)
  }

  /** Inserting adds exactly the new id. */
  lemma {:induction false} InsertCounts(ids: seq<string>, id: string)
    ensures multiset(Insert(ids, id)) == multiset(ids) + multiset{id}
  {
    if ids != [] && SortKey(id) >= SortKey(ids[0]) {
      InsertCounts(ids[1..], id);
      assert ids == [ids[0]] + ids[1..];
    }
  }

  /** An id whose key bounds a sorted list from below can go in front of it. */
  lemma ConsSorted(x: string, ids: seq<string>)
    requires SortedByKey(ids)
    requires forall k :: 0 <= k < |ids| ==> SortKey(x) <= SortKey(ids[k])
    ensures SortedByKey([x] + ids)
  {
    var r := [x] + ids;
    forall i, j | 0 <= i < j < |r|
      ensures SortKey(r[i]) <= SortKey(r[j])
    {
      assert r[j] == ids[j - 1];
      if i > 0 {
        assert r[i] == ids[i - 1];
      }
    }
  }

  /** Inserting into a sorted list keeps it sorted and adds exactly the new id. */
  lemma {:induction false} InsertSorted(ids: seq<string>, id: string)
    requires SortedByKey(ids)
    ensures SortedByKey(Insert(ids, id)) && multiset(Insert(ids, id)) == multiset(ids) + multiset{id}
  {
    InsertCounts(ids, id);
    if ids != [] && SortKey(id) >= SortKey(ids[0]) {
      var tail := ids[1..];
      var rest := Insert(tail, id);
      InsertSorted(tail, id);
      forall k | 0 <= k < |rest|
        ensures SortKey(ids[0]) <= SortKey(rest[k])
      {
        assert rest[k] in multiset(rest);
        if rest[k] != id {
          assert rest[k] in multiset(tail);
          var m :| 0 <= m < |tail| && tail[m] == rest[k];
          assert tail[m] == ids[m + 1];
        }
      }
      ConsSorted(ids[0], rest);
    } else if ids != [] {
      forall k | 0 <= k < |ids|
        ensures SortKey(id) <= SortKey(ids[k])
      {
        if k > 0 {
          assert SortKey(ids[0]) <= SortKey(ids[k]);
        }
      }
      ConsSorted(id, ids);
    }
  }

  lemma DistinctByCount(s: seq<string>)
    requires forall x :: multiset(s)[x] <= 1
    ensures Distinct(s)
  {
    forall i, j | 0 <= i < j < |s| ensures s[i] != s[j] {
      assert s == s[..j] + s[j..];
      assert multiset(s) == multiset(s[..j]) + multiset(s[j..]);
      assert s[j..][0] == s[j];
      assert multiset(s[j..])[s[j]] >= 1;
      assert multiset(s)[s[j]] <= 1;
      assert multiset(s[..j])[s[j]] == 0;
      assert s[..j][i] == s[i];
    }
  }

  lemma {:induction false} DistinctCount(s: seq<string>, x: string)
    requires Distinct(s)
    ensures multiset(s)[x] <= 1
  {
    if s != [] {
      var init := s[..|s| - 1];
      assert s == init + [s[|s| - 1]];
      DistinctCount(init, x);
      if s[|s| - 1] == x {
        assert x !in init;
      }
    }
  }

  /** sorted(ids, key=int): the ids, each once, in increasing key order. */
  method SortIds(ids: set<string>) returns (order: seq<string>)
    ensures SortedByKey(order) && Distinct(order)
    ensures forall id :: id in ids <==> id in order
  {
    var remaining := ids;
    order := [];
    while remaining != {}
      invariant SortedByKey(order) && Distinct(order)
      invariant forall id :: id in ids <==> id in remaining || id in order
      invariant forall id :: id in remaining ==> id !in order
      decreases remaining
    {
      var id :| id in remaining;
      ghost var before := order;
      InsertSorted(order, id);
      order := Insert(order, id);
      remaining := remaining - {id};
      forall x ensures multiset(order)[x] <= 1 {
        DistinctCount(before, x);
      }
      DistinctByCount(order);
      forall x ensures x in order <==> x in before || x == id {
        assert x in order <==> x in multiset(order);
        assert x in before <==> x in multiset(before);
      }
    }
  }

  /** The counts summed over a list of ids. */
  function SumOf(m: multiset<string>, ids: seq<string>): nat
  {
    if ids == [] then 0 else SumOf(m, ids[..|ids| - 1]) + m[ids[|ids| - 1]]
  }

  lemma {:induction false} SumOfEmpty(ids: seq<string>)
    ensures SumOf(multiset{}, ids) == 0
  {
    if ids != [] {
      SumOfEmpty(ids[..|ids| - 1]);
    }
  }

  lemma {:induction false} SumOfUnaffected(m: multiset<string>, ids: seq<string>, x: string)
    requires x !in ids
    ensures SumOf(m - multiset{x}, ids) == SumOf(m, ids)
  {
    if ids != [] {
      SumOfUnaffected(m, ids[..|ids| - 1], x);
    }
  }

  lemma {:induction false} SumOfRemove(m: multiset<string>, ids: seq<string>, x: string)
    requires x in m && Distinct(ids) && x in ids
    ensures SumOf(m - multiset{x}, ids) + 1 == SumOf(m, ids)
  {
    var init, last := ids[..|ids| - 1], ids[|ids| - 1];
    if last == x {
      assert x !in init;
      SumOfUnaffected(m, init, x);
    } else {
      assert x in init;
      SumOfRemove(m, init, x);
    }
  }

  /** Summing the counts over distinct ids that cover the counter gives its size. */
  lemma {:induction false} SumOfAll(m: multiset<string>, ids: seq<string>)
    requires Distinct(ids) && forall x :: x in m ==> x in ids
    ensures SumOf(m, ids) == |m|
    decreases |m|
  {
    if |m| == 0 {
      assert m == multiset{};
      SumOfEmpty(ids);
    } else {
      var x :| x in m;
      SumOfAll(m - multiset{x}, ids);
      SumOfRemove(m, ids, x);
    }
  }

  /** One printed line of the report. */
  datatype ClassLine = ClassLine(id: string, count: nat)

  /** What count_class.py prints: a line per class id in int order, then the total. */
  datatype Summary = Summary(lines: seq<ClassLine>, total: nat)

  /**
   * The report of a counter: int() fails on an id that is no integer (a
   * ValueError); otherwise each id appears once in increasing int order with
   * its count, and the total is the number of annotations.
   */
  method Report(counts: multiset<string>) returns (r: Result<Summary, string>)
    ensures r.Err? <==> exists id :: id in counts && PyInt(id).None?
    ensures r.Ok? ==>
      var lines := r.value.lines;
      (forall i :: 0 <= i < |lines| ==> PyInt(lines[i].id).Some? && lines[i].count == counts[lines[i].id])
      && (forall i, j :: 0 <= i < j < |lines| ==>
        (PyInt(lines[i].id).value <= PyInt(lines[j].id).value && lines[i].id != lines[j].id))
      && (forall id :: id in counts <==> exists i :: 0 <= i < |lines| && lines[i].id == id)
      && r.value.total == |counts|
  {
    if exists id :: id in counts && PyInt(id).None? {
      return Err("ValueError");
    }
    var ids := set id | id in counts;
    var order := SortIds(ids);
    assert forall id :: id in order <==> id in counts;
    var lines, total := ReportLines(counts, order);
    SumOfAll(counts, order);
    SortedLines(counts, order, lines);
    return Ok(Summary(lines, total));
  }

  /** The lines of ids sorted by key, each once, all of them integers, read as the report promises. */
  lemma SortedLines(counts: multiset<string>, order: seq<string>, lines: seq<ClassLine>)
    requires SortedByKey(order) && Distinct(order)
    requires forall id :: id in order <==> id in counts
    requires forall id :: id in counts ==> PyInt(id).Some?
    requires |lines| == |order| && forall i :: 0 <= i < |order| ==> lines[i] == ClassLine(order[i], counts[order[i]])
    ensures forall i :: 0 <= i < |lines| ==> PyInt(lines[i].id).Some? && lines[i].count == counts[lines[i].id]
    ensures forall i, j :: 0 <= i < j < |lines| ==>
        (PyInt(lines[i].id).value <= PyInt(lines[j].id).value && lines[i].id != lines[j].id)
    ensures forall id :: id in counts <==> exists i :: 0 <= i < |lines| && lines[i].id == id
  {
    forall i | 0 <= i < |lines|
      ensures lines[i].id in counts && SortKey(lines[i].id) == PyInt(lines[i].id).value
    {
      assert lines[i].id == order[i];
    }
    forall id | id in counts
      ensures exists i :: 0 <= i < |lines| && lines[i].id == id
    {
      var i :| 0 <= i < |order| && order[i] == id;
      assert lines[i].id == id;
    }
  }

  /** The print loop over the sorted ids, and sum(counts.values()). */
  method ReportLines(counts: multiset<string>, order: seq<string>) returns (lines: seq<ClassLine>, total: nat)
    ensures |lines| == |order| && forall i :: 0 <= i < |order| ==> lines[i] == ClassLine(order[i], counts[order[i]])
    ensures forall id :: id in order <==> exists i :: 0 <= i < |lines| && lines[i].id == id
    ensures total == SumOf(counts, order)
  {
    lines, total := [], 0;
    for i := 0 to |order|
      invariant |lines| == i && forall j :: 0 <= j < i ==> lines[j] == ClassLine(order[j], counts[order[j]])
      invariant total == SumOf(counts, order[..i])
    {
      assert order[..i + 1][..i] == order[..i];
      lines := lines + [ClassLine(order[i], counts[order[i]])];
      total := total + counts[order[i]];
    }
    assert order[..|order|] == order;
    forall id | id in order ensures exists i :: 0 <= i < |lines| && lines[i].id == id {
      var i :| 0 <= i < |order| && order[i] == id;
      assert lines[i].id == id;
    }
  }

  // ================================================ compute_prune_targets.py

  const PruneSplits := ["valid", "test"]
  const OriginalTrainCount := 12000
  const TargetTrain := 2800

  /** TARGET_TRAIN / ORIGINAL_TRAIN_COUNT. */
  const PruneRatio: real := TargetTrain as real / OriginalTrainCount as real

  /**
   * Whether a file holds the class: lines are read until one's first token
   * is the class id; a blank line reached first makes ln.split()[0] fail.
   */
  function FileHit(lines: seq<string>, classId: string): Result<bool, string>
  {
    if lines == [] then Ok(false)
    else
      var parts := Words(lines[0]);
      if parts == [] then Err("IndexError")
      else if parts[0] == classId then Ok(true)
      else FileHit(lines[1..], classId)
  }

  /** The number of .txt files holding the class, or the first failure. */
  function HitCount(files: seq<LabelFile>, classId: string): Result<nat, string>
  {
    if files == [] then Ok(0)
    else
      var before := HitCount(files[..|files| - 1], classId);
      var last := files[|files| - 1];
      if before.Err? || !IsTxt(last) then before
      else match FileHit(Lines(last.text), classId)
        case Err(e) => Err(e)
        case Ok(hit) => Ok(before.value + if hit then 1 else 0)
  }

  /** An empty class id, as CLASS_ID ships, matches no line: no file is ever counted. */
  lemma {:induction false} EmptyClassIdNeverHits(lines: seq<string>)
    ensures FileHit(lines, "") != Ok(true)
  {
    if lines != [] && Words(lines[0]) != [] {
      EmptyClassIdNeverHits(lines[1..]);
    }
  }

  lemma {:induction false} HitCountBound(files: seq<LabelFile>, classId: string)
    ensures HitCount(files, classId).Ok? ==> HitCount(files, classId).value <= |files|
  {
    if files != [] {
      HitCountBound(files[..|files| - 1], classId);
    }
  }

  /** keep = int(orig * ratio): the ratio's share rounded down. */
  function Keep(orig: nat, ratio: real): int
  {
    (orig as real * ratio).Floor
  }

  /** With a ratio between 0 and 1 the kept share lies between 0 and the current count. */
  lemma KeepBounds(orig: nat, ratio: real)
    requires 0.0 <= ratio <= 1.0
    ensures 0 <= Keep(orig, ratio) <= orig
    ensures Keep(orig, ratio) as real <= orig as real * ratio < Keep(orig, ratio) as real + 1.0
  {
    RealProductBounds(orig as real, ratio);
  }

  lemma RealProductBounds(x: real, ratio: real)
    requires 0.0 <= x && 0.0 <= ratio <= 1.0
    ensures 0.0 <= x * ratio <= x
  {
  }

  /** One printed suggestion: current count, kept share and deleted share. */
  datatype Suggestion = Suggestion(split: string, current: nat, keep: int, delete: int)

  /** The files holding the class in one split, per split's loops, with the break. */
  method CountHits(files: seq<LabelFile>, classId: string) returns (r: Result<nat, string>)
    ensures r == HitCount(files, classId)
  {
    var cnt := 0;
    for i := 0 to |files|
      invariant HitCount(files[..i], classId) == Ok(cnt)
    {
      assert files[..i + 1][..i] == files[..i];
      if !IsTxt(files[i]) {
        continue;
      }
      var lines := Lines(files[i].text);
      var j := 0;
      while j < |lines|
        invariant 0 <= j <= |lines|
        invariant FileHit(lines, classId) == FileHit(lines[j..], classId)
      {
        assert lines[j..][1..] == lines[j + 1..];
        var parts := Words(lines[j]);
        if parts == [] {
          HitCountFails(files, i, classId);
          return Err("IndexError");
        }
        if parts[0] == classId {
          cnt := cnt + 1;
          break;
        }
        j := j + 1;
      }
    }
    assert files[..|files|] == files;
    r := Ok(cnt);
  }

  /** A failing file makes the whole count fail, whatever follows it. */
  lemma HitCountFails(files: seq<LabelFile>, i: int, classId: string)
    requires 0 <= i < |files| && HitCount(files[..i], classId).Ok? && IsTxt(files[i])
    requires FileHit(Lines(files[i].text), classId).Err?
    ensures HitCount(files, classId) == Err("IndexError")
  {
    assert files[..i + 1][..i] == files[..i];
    FileHitFailure(Lines(files[i].text), classId);
    FailureStays(files, i + 1, classId);
  }

  lemma {:induction false} FileHitFailure(lines: seq<string>, classId: string)
    ensures FileHit(lines, classId).Err? ==> FileHit(lines, classId) == Err("IndexError")
  {
    if lines != [] && Words(lines[0]) != [] && Words(lines[0])[0] != classId {
      FileHitFailure(lines[1..], classId);
    }
  }

  lemma {:induction false} FailureStays(files: seq<LabelFile>, k: int, classId: string)
    requires 0 <= k <= |files| && HitCount(files[..k], classId) == Err("IndexError")
    ensures HitCount(files, classId) == Err("IndexError")
    decreases |files| - k
  {
    if k == |files| {
      assert files[..k] == files;
    } else {
      assert files[..k + 1][..k] == files[..k];
      FailureStays(files, k + 1, classId);
    }
  }

  /** The count of one prune split: 0 when its labels directory is missing. */
  function SplitHits(labels: map<string, seq<LabelFile>>, split: string, classId: string): Result<nat, string>
  {
    if split in labels then HitCount(labels[split], classId) else Ok(0)
  }

  /** The count recorded for a split, 0 when none was recorded. */
  function CountOf(counts: map<string, nat>, split: string): nat
  {
    if split in counts then counts[split] else 0
  }

  /** The suggestion printed for one split. */
  function Suggest(split: string, orig: nat): (s: Suggestion)
    ensures s.split == split && s.current == orig && s.keep == Keep(orig, PruneRatio) && s.keep + s.delete == orig
  {
    var keep := Keep(orig, PruneRatio);
    Suggestion(split, orig, keep, orig - keep)
  }

  /** The counting loop of compute_prune_targets.py: each existing split's hits, or the first failure. */
  method CountPruneSplits(labels: map<string, seq<LabelFile>>, classId: string) returns (r: Result<map<string, nat>, string>)
    ensures r.Err? <==> exists k :: 0 <= k < |PruneSplits| && SplitHits(labels, PruneSplits[k], classId).Err?
    ensures r.Ok? ==> forall m :: 0 <= m < |PruneSplits| ==>
      SplitHits(labels, PruneSplits[m], classId) == Ok(CountOf(r.value, PruneSplits[m]))
    ensures r.Ok? ==> forall s :: s in r.value <==> s in PruneSplits && s in labels
  {
    var currCounts: map<string, nat> := map[];
    var k := 0;
    while k < |PruneSplits|
      invariant 0 <= k <= |PruneSplits|
      invariant forall s :: s in currCounts <==> s in PruneSplits[..k] && s in labels
      invariant forall m :: 0 <= m < k ==>
        SplitHits(labels, PruneSplits[m], classId) == Ok(CountOf(currCounts, PruneSplits[m]))
    {
      var split := PruneSplits[k];
      if split in labels {
        var cnt := CountHits(labels[split], classId);
        if cnt.Err? {
          assert SplitHits(labels, PruneSplits[k], classId).Err?;
          return Err(cnt.error);
        }
        currCounts := currCounts[split := cnt.value];
      }
      k := k + 1;
    }
    r := Ok(currCounts);
  }

  /** The printing loop: one suggestion per split, from its recorded count. */
  method SuggestAll(currCounts: map<string, nat>) returns (suggestions: seq<Suggestion>)
    ensures |suggestions| == |PruneSplits|
    ensures forall m :: 0 <= m < |PruneSplits| ==> suggestions[m] == Suggest(PruneSplits[m], CountOf(currCounts, PruneSplits[m]))
  {
    suggestions := [];
    var k := 0;
    while k < |PruneSplits|
      invariant 0 <= k <= |PruneSplits| && |suggestions| == k
      invariant forall m :: 0 <= m < k ==> suggestions[m] == Suggest(PruneSplits[m], CountOf(currCounts, PruneSplits[m]))
    {
      var split := PruneSplits[k];
      var orig := if split in currCounts then currCounts[split] else 0;
      var keep := (orig as real * PruneRatio).Floor;
      var delete := orig - keep;
      suggestions := suggestions + [Suggestion(split, orig, keep, delete)];
      k := k + 1;
    }
  }

  /**
   * compute_prune_targets.py: count valid and test, then suggest for each
   * int(current * ratio) to keep and the rest to delete; a blank line in a
   * scanned file aborts the script.
   */
  method PruneTargets(labels: map<string, seq<LabelFile>>, classId: string) returns (r: Result<seq<Suggestion>, string>)
    ensures r.Err? <==> exists k :: 0 <= k < |PruneSplits| && SplitHits(labels, PruneSplits[k], classId).Err?
    ensures r.Ok? ==> |r.value| == |PruneSplits| && forall k :: 0 <= k < |PruneSplits| ==>
      var s := r.value[k];
      s.split == PruneSplits[k] && s.current == SplitHits(labels, PruneSplits[k], classId).value
      && s.keep == Keep(s.current, PruneRatio) && s.keep + s.delete == s.current
  {
    var counts := CountPruneSplits(labels, classId);
    if counts.Err? {
      return Err(counts.error);
    }
    var suggestions := SuggestAll(counts.value);
    return Ok(suggestions);
  }
}
