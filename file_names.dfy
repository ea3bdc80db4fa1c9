/** The names of the files a run writes: the final video's name, derived from
    the script title and the run's timestamp when the caller gives none, and
    the metadata record's name, derived from the timestamp alone. */
module FileNames {
  import opened Values

  /** The sanitized title is cut to this many characters. */
  const MaxTitleLength: nat := 50

  const VideoExtension := ".mp4"

  /** `str.isalnum` on one character, restricted to ASCII. */
  predicate IsAlnum(c: char)
  {
    ('a' <= c <= 'z') || ('A' <= c <= 'Z') || ('0' <= c <= '9')
  }

  /** The characters the sanitizer's filter lets through. */
  predicate Kept(c: char)
  {
    IsAlnum(c) || c == ' ' || c == '-' || c == '_'
  }

  /** The characters a sanitized title is made of. */
  predicate SafeChar(c: char)
  {
    IsAlnum(c) || c == '-' || c == '_'
  }

  predicate AllSafe(s: string)
  {
    forall i :: 0 <= i < |s| ==> SafeChar(s[i])
  }

  /** The joined generator: the characters of `s` that are kept, in order. */
  function Filter(s: string): (r: string)
    ensures |r| <= |s|
    ensures forall i :: 0 <= i < |r| ==> Kept(r[i])
    ensures forall i :: 0 <= i < |r| ==> r[i] in s
  {
    if s == [] then [] else (if Kept(s[0]) then [s[0]] else []) + Filter(s[1..])
  }

  /** One character is kept as it is or dropped; it is never replaced. */
  lemma FilterSingle(c: char)
    ensures Filter([c]) == if Kept(c) then [c] else []
  {
    assert [c][1..] == [];
  }

  /** `s.replace(' ', '_')`. */
  function ReplaceSpaces(s: string): (r: string)
    ensures |r| == |s|
    ensures forall i :: 0 <= i < |s| ==> r[i] == if s[i] == ' ' then '_' else s[i]
  {
    if s == [] then [] else [if s[0] == ' ' then '_' else s[0]] + ReplaceSpaces(s[1..])
  }

  /** The slice `s[:n]`. */
  function Truncate(s: string, n: nat): string
  {
    if |s| <= n then s else s[..n]
  }

  /** The sanitizer applied to an already joined string of kept pieces. */
  function Finish(joined: string): string
  {
    Truncate(ReplaceSpaces(joined), MaxTitleLength)
  }

  /** The sanitized title of a string title. */
  function SafeTitle(title: string): string
  {
    Finish(Filter(title))
  }

  /** The name of the final video when the caller supplies none. */
  function DerivedName(safeTitle: string, timestamp: string): string
  {
    safeTitle + "_" + timestamp + VideoExtension
  }

  /** `output_filename` as `run` settles it: a supplied non-empty name is used
      as it is, otherwise the name is derived from the title. */
  function OutputFilename(supplied: Option<string>, title: string, timestamp: string): string
  {
    if supplied.Some? && supplied.value != "" then supplied.value
    else DerivedName(SafeTitle(title), timestamp)
  }

  /** The name of the metadata record of a run. */
  function MetadataName(timestamp: string): string
  {
    "project_" + timestamp + ".json"
  }

  // ---------------------------------------------------------------------
  // Titles that are not strings. Python iterates the title: a list's items
  // go through `isalnum` and the membership test one by one.

  /** `p.isalnum() or p in (' ', '-', '_')` for a string item `p`. */
  predicate KeptPiece(p: string)
  {
    (p != [] && forall i :: 0 <= i < |p| ==> IsAlnum(p[i])) || p == " " || p == "-" || p == "_"
  }

  /** `"".join(c for c in items if c.isalnum() or c in (' ', '-', '_'))`; the
      first item that is not a string raises an AttributeError. */
  function JoinKept(items: seq<Json>): (r: Outcome<string>)
    ensures r.Returned? <==> forall i :: 0 <= i < |items| ==> items[i].JStr?
  {
    if items == [] then Returned("")
    else if !items[0].JStr? then
      Raised("'" + TypeName(items[0]) + "' object has no attribute 'isalnum'")
    else
      var rest := JoinKept(items[1..]);
      if rest.Raised? then rest
      else Returned((if KeptPiece(items[0].s) then items[0].s else "") + rest.value)
  }

  /** The message the model gives for a title that is a JSON object; Python
      would iterate its keys, in an order a `map` does not keep. */
  const ObjectTitleMessage := "title is a JSON object"

  /** The sanitized title of the value stored under "title". */
  function SafeTitleOf(title: Json): Outcome<string>
  {
    match title
    case JStr(s) => Returned(SafeTitle(s))
    case JArr(items) =>
      var joined := JoinKept(items);
      if joined.Raised? then Raised(joined.message) else Returned(Finish(joined.value))
    case JObj(_) => Raised(ObjectTitleMessage)
    case _ => Raised("'" + TypeName(title) + "' object is not iterable")
  }

  /** The single-character strings of `s`, as Python's iteration gives them. */
  function Chars(s: string): (r: seq<Json>)
    ensures |r| == |s|
  {
    seq(|s|, i requires 0 <= i < |s| => JStr([s[i]]))
  }

  // ---------------------------------------------------------------------
  // Properties of the sanitizer.

  /** Filtering a concatenation filters each part: characters are dropped,
      never substituted or reordered. */
  lemma {:induction false} FilterAppend(a: string, b: string)
    ensures Filter(a + b) == Filter(a) + Filter(b)
  {
    if a == [] {
      assert a + b == b;
    } else {
      assert (a + b)[0] == a[0];
      assert (a + b)[1..] == a[1..] + b;
      FilterAppend(a[1..], b);
    }
  }

  /** Filtering leaves a string unchanged exactly when every character is kept. */
  lemma {:induction false} FilterIdentity(s: string)
    ensures Filter(s) == s <==> forall i :: 0 <= i < |s| ==> Kept(s[i])
  {
    if s != [] {
      FilterIdentity(s[1..]);
      if !Kept(s[0]) {
        assert |Filter(s)| <= |s[1..]| < |s|;
      } else {
        assert Filter(s) == [s[0]] + Filter(s[1..]);
        if Filter(s) == s {
          assert Filter(s[1..]) == s[1..];
        }
        forall i | 1 <= i < |s| ensures s[i] == s[1..][i - 1] { }
      }
    }
  }

  /** Joining the single characters of a string, as a list title, gives the
      same string as filtering the string itself. */
  lemma {:induction false} JoinKeptChars(s: string)
    ensures JoinKept(Chars(s)) == Returned(Filter(s))
  {
    if s != [] {
      assert Chars(s)[1..] == Chars(s[1..]);
      JoinKeptChars(s[1..]);
      assert KeptPiece([s[0]]) <==> Kept(s[0]);
    }
  }

  /** One string item is joined as it is when `isalnum` or the membership
      test accepts it, and dropped otherwise; a non-string item raises. */
  lemma JoinKeptSingle(item: Json)
    ensures item.JStr? ==> JoinKept([item]) == Returned(if KeptPiece(item.s) then item.s else "")
    ensures !item.JStr? ==> JoinKept([item]) == Raised("'" + TypeName(item) + "' object has no attribute 'isalnum'")
  {
    assert [item][1..] == [];
    if item.JStr? {
      var piece := if KeptPiece(item.s) then item.s else "";
      assert piece + "" == piece;
    }
  }

  /** An item with a space in it is neither alphanumeric nor one of the
      three accepted strings, so it is dropped whole. */
  lemma JoinDropsMixedItem()
    ensures JoinKept([JStr("a b")]) == Returned("")
  {
    assert !IsAlnum("a b"[1]);
    JoinKeptSingle(JStr("a b"));
  }

  /** Joining a concatenation joins each part in order; the first part that
      raises decides the exception. */
  lemma {:induction false} JoinKeptAppend(a: seq<Json>, b: seq<Json>)
    ensures JoinKept(a + b)
            == var x := JoinKept(a);
               if x.Raised? then x
               else var y := JoinKept(b); if y.Raised? then y else Returned(x.value + y.value)
    decreases |a|
  {
    if a == [] {
      assert a + b == b;
      var y := JoinKept(b);
      if y.Returned? {
        assert "" + y.value == y.value;
      }
    } else {
      assert (a + b)[0] == a[0];
      assert (a + b)[1..] == a[1..] + b;
      JoinKeptAppend(a[1..], b);
      if a[0].JStr? {
        var head := if KeptPiece(a[0].s) then a[0].s else "";
        var x, y := JoinKept(a[1..]), JoinKept(b);
        if x.Returned? && y.Returned? {
          assert head + (x.value + y.value) == (head + x.value) + y.value;
        }
      }
    }
  }

  /** The sanitized title holds only letters, digits, '-' and '_', and has at
      most 50 characters; it is the first characters of the filtered title with
      spaces turned into underscores. */
  lemma SafeTitleShape(title: string)
    ensures |SafeTitle(title)| == if |Filter(title)| <= MaxTitleLength then |Filter(title)| else MaxTitleLength
    ensures |SafeTitle(title)| <= MaxTitleLength
    ensures AllSafe(SafeTitle(title))
    ensures forall i :: 0 <= i < |SafeTitle(title)| ==>
              SafeTitle(title)[i] == if Filter(title)[i] == ' ' then '_' else Filter(title)[i]
  {
  }

  /** No space survives sanitizing. */
  lemma NoSpaces(title: string)
    ensures forall i :: 0 <= i < |SafeTitle(title)| ==> SafeTitle(title)[i] != ' '
  {
    SafeTitleShape(title);
  }

  /** The fixed points of the sanitizer are exactly the safe strings of at
      most 50 characters. */
  lemma SafeTitleFixedPoints(s: string)
    ensures SafeTitle(s) == s <==> (|s| <= MaxTitleLength && AllSafe(s))
  {
    SafeTitleShape(s);
    if |s| <= MaxTitleLength && AllSafe(s) {
      FilterIdentity(s);
      assert ReplaceSpaces(s) == s;
    }
  }

  /** Sanitizing twice is sanitizing once. */
  lemma SafeTitleIdempotent(title: string)
    ensures SafeTitle(SafeTitle(title)) == SafeTitle(title)
  {
    SafeTitleShape(title);
    SafeTitleFixedPoints(SafeTitle(title));
  }

  /** With no supplied name the derived name is the sanitized title, '_', the
      timestamp and ".mp4"; a supplied non-empty name is used verbatim. */
  lemma OutputFilenameCases(supplied: Option<string>, title: string, timestamp: string)
    ensures supplied.Some? && supplied.value != "" ==> OutputFilename(supplied, title, timestamp) == supplied.value
    ensures (supplied.None? || supplied.value == "") ==>
              var name := OutputFilename(supplied, title, timestamp);
              && |name| == |SafeTitle(title)| + 1 + |timestamp| + 4
              && name[..|SafeTitle(title)|] == SafeTitle(title)
              && name[|SafeTitle(title)|] == '_'
              && name[|SafeTitle(title)| + 1..|name| - 4] == timestamp
              && name[|name| - 4..] == VideoExtension
  {
  }

  /** Splits a derived name back into its sanitized title and a timestamp of
      `width` characters. */
  function SplitName(name: string, width: nat): Option<(string, string)>
  {
    if |name| >= width + 5 && name[|name| - 4..] == VideoExtension && name[|name| - 5 - width] == '_'
    then Some((name[..|name| - 5 - width], name[|name| - 4 - width..|name| - 4]))
    else None
  }

  /** The derived name determines the sanitized title and the timestamp, and
      every name that splits is a derived name. */
  lemma SplitDerivedName(safeTitle: string, timestamp: string, name: string)
    ensures SplitName(DerivedName(safeTitle, timestamp), |timestamp|) == Some((safeTitle, timestamp))
    ensures SplitName(name, |timestamp|).Some? ==>
              var (t, ts) := SplitName(name, |timestamp|).value;
              DerivedName(t, ts) == name && |ts| == |timestamp|
  {
    var n := DerivedName(safeTitle, timestamp);
    assert n[|n| - 4..] == VideoExtension;
    assert n[..|n| - 5 - |timestamp|] == safeTitle;
    assert n[|n| - 4 - |timestamp|..|n| - 4] == timestamp;
    if SplitName(name, |timestamp|).Some? {
      var w := |timestamp|;
      var (t, ts) := SplitName(name, w).value;
      assert name == name[..|name| - 5 - w] + [name[|name| - 5 - w]] + name[|name| - 4 - w..|name| - 4] + name[|name| - 4..];
    }
  }

  /** Runs with different timestamps never share a metadata record, and the
      name always has the same frame around the timestamp. */
  lemma MetadataNameInjective(a: string, b: string)
    ensures MetadataName(a) == MetadataName(b) <==> a == b
    ensures |MetadataName(a)| == |a| + 13
    ensures MetadataName(a)[8..|a| + 8] == a
  {
    if MetadataName(a) == MetadataName(b) {
      assert |a| == |b|;
      assert MetadataName(a)[8..|a| + 8] == a;
      assert MetadataName(b)[8..|b| + 8] == b;
    }
  }
}
