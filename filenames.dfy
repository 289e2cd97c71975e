/** File-name helpers of webInit.py: `str.endswith`, `str.split(".")`,
    `".".join(...)`, the title derivation `getFnameWithoutExtension`, and the
    suffix normalisation that the command-line block applies to its arguments. */
module FileNames {

  import opened Wrappers

  /** Python's `s.endswith(suffix)`. */
  predicate HasSuffix(s: string, suffix: string)
  {
    |suffix| <= |s| && s[|s| - |suffix|..] == suffix
  }

  /** Python's `s.split(".")`: the maximal dot-free pieces between the dots,
      always at least one (`"".split(".") == [""]`). Built from the right,
      which yields the same list as Python's left-to-right scan. */
  function Split(s: string): (parts: seq<string>)
    ensures |parts| >= 1
    decreases |s|
  {
    if s == [] then [[]]
    else
      var init := Split(s[..|s| - 1]);
      var c := s[|s| - 1];
      if c == '.' then init + [[]]
      else init[..|init| - 1] + [init[|init| - 1] + [c]]
  }

  /** No piece of a split contains a dot. */
  lemma {:induction false} SplitPiecesHaveNoDot(s: string)
    ensures forall i :: 0 <= i < |Split(s)| ==> '.' !in Split(s)[i]
    decreases |s|
  {
    if s != [] {
      var t, c := s[..|s| - 1], s[|s| - 1];
      SplitPiecesHaveNoDot(t);
      var init := Split(t);
      if c != '.' {
        var last := init[|init| - 1];
        assert '.' !in last + [c];
      }
    }
  }

  /** Python's `".".join(parts)`. Splitting the join of dot-free pieces
      gives the pieces back. */
  function Join(parts: seq<string>): (s: string)
    ensures |parts| >= 1 && (forall i :: 0 <= i < |parts| ==> '.' !in parts[i]) ==> Split(s) == parts
  {
    if |parts| == 0 then []
    else if |parts| == 1 then
      LastDotFindsDot(parts[0]);
      SplitAtLastDot(parts[0]);
      parts[0]
    else
      var front, last := parts[..|parts| - 1], parts[|parts| - 1];
      var joined := Join(front);
      LastDotBeforeDotFree(joined, last);
      SplitAtLastDot(joined + "." + last);
      assert (joined + "." + last)[..|joined|] == joined;
      assert (joined + "." + last)[|joined| + 1..] == last;
      assert parts == front + [last];
      joined + "." + last
  }

  /** The dot that joins `a` to a dot-free `b` is the last dot. */
  lemma LastDotBeforeDotFree(a: string, b: string)
    ensures '.' !in b ==> LastDot(a + "." + b) == |a|
  {
    var s := a + "." + b;
    var k := LastDot(s);
    assert s[|a|] == '.';
    if k > |a| {
      assert s[k] == b[k - |a| - 1];
    }
  }

  /** A trailing dot starts a new, empty piece. */
  lemma SplitDot(s: string)
    ensures Split(s + ".") == Split(s) + [[]]
  {
    var t := s + ".";
    assert t[..|t| - 1] == s;
    assert t[|t| - 1] == '.';
  }

  /** Appending a character other than a dot extends the last piece. */
  lemma SplitAppendChar(s: string, c: char)
    requires c != '.'
    ensures var parts := Split(s);
      Split(s + [c]) == parts[..|parts| - 1] + [parts[|parts| - 1] + [c]]
  {
    var t := s + [c];
    assert t[..|t| - 1] == s;
    assert t[|t| - 1] == c;
  }

  /** `getFnameWithoutExtension`: join all dot-separated pieces but the last.
      That is exactly the text before the last dot, or "" without a dot. */
  function StripExtension(fname: string): (r: string)
    ensures r == if LastDot(fname) < 0 then "" else fname[..LastDot(fname)]
  {
    var parts := Split(fname);
    SplitAtLastDot(fname);
    if LastDot(fname) < 0 then Join(parts[..|parts| - 1])
    else
      JoinSplit(fname[..LastDot(fname)]);
      Join(parts[..|parts| - 1])
  }

  /** The piece that `StripExtension` drops: the text after the last dot. */
  function LastSegment(fname: string): string
  {
    var parts := Split(fname);
    parts[|parts| - 1]
  }

  /** Reference definition: the index of the last '.' in `s`, or -1. */
  function LastDot(s: string): (k: int)
    ensures -1 <= k < |s|
    ensures k >= 0 ==> s[k] == '.'
    ensures forall j :: k < j < |s| ==> s[j] != '.'
    decreases |s|
  {
    if s == [] then -1
    else if s[|s| - 1] == '.' then |s| - 1
    else LastDot(s[..|s| - 1])
  }

  lemma LastDotFindsDot(s: string)
    ensures LastDot(s) >= 0 <==> '.' in s
  {
    if '.' in s {
      var i :| 0 <= i < |s| && s[i] == '.';
      assert LastDot(s) >= i;
    }
  }

  lemma JoinSnoc(parts: seq<string>, p: string)
    requires |parts| >= 1
    ensures Join(parts + [p]) == Join(parts) + "." + p
  {
    assert (parts + [p])[..|parts|] == parts;
  }

  /** Joining the pieces of a split gives the string back. */
  lemma {:induction false} JoinSplit(s: string)
    ensures Join(Split(s)) == s
    decreases |s|
  {
    if s != [] {
      var t, c := s[..|s| - 1], s[|s| - 1];
      assert s == t + [c];
      var init := Split(t);
      JoinSplit(t);
      if c == '.' {
        SplitDot(t);
        JoinSnoc(init, []);
      } else {
        SplitAppendChar(t, c);
        var front, last := init[..|init| - 1], init[|init| - 1];
        if |init| == 1 {
          assert Split(s) == [last + [c]];
        } else {
          assert init == front + [last];
          JoinSnoc(front, last);
          JoinSnoc(front, last + [c]);
        }
      }
    }
  }

  /** Splitting cuts at the last dot: everything before it is the split of the
      prefix, and the last piece is the text after it. Without a dot the split
      is the whole string. */
  lemma {:induction false} SplitAtLastDot(s: string)
    ensures var parts, k := Split(s), LastDot(s);
      if k < 0 then parts == [s]
      else parts[..|parts| - 1] == Split(s[..k]) && parts[|parts| - 1] == s[k + 1..]
    decreases |s|
  {
    if s != [] {
      var t, c := s[..|s| - 1], s[|s| - 1];
      SplitAtLastDot(t);
      var init := Split(t);
      if c == '.' {
        assert s[..|s| - 1] == t;
        assert (init + [[]])[..|init|] == init;
      } else {
        var k := LastDot(t);
        assert LastDot(s) == k;
        if k >= 0 {
          assert s[..k] == t[..k];
          assert s[k + 1..] == t[k + 1..] + [c];
        } else {
          assert s == t + [c];
        }
      }
    }
  }

  /** The title is everything before the last '.', so title, dot and last
      segment rebuild the name; a name without a dot has the empty title. */
  lemma StripExtensionRebuildsName(fname: string)
    ensures '.' !in fname ==> StripExtension(fname) == ""
    ensures '.' in fname ==>
      '.' !in LastSegment(fname) && StripExtension(fname) + "." + LastSegment(fname) == fname
  {
    LastDotFindsDot(fname);
    if LastDot(fname) >= 0 {
      RebuildAtLastDot(fname);
    }
  }

  /** The case of `StripExtensionRebuildsName` where the name has a dot. */
  lemma RebuildAtLastDot(fname: string)
    requires LastDot(fname) >= 0
    ensures '.' !in LastSegment(fname) && StripExtension(fname) + "." + LastSegment(fname) == fname
  {
    var k := LastDot(fname);
    SplitPiecesHaveNoDot(fname);
    LastSegmentFollowsLastDot(fname);
    assert fname == fname[..k] + "." + fname[k + 1..];
  }

  /** The piece `StripExtension` drops is the text after the last dot. */
  lemma LastSegmentFollowsLastDot(fname: string)
    requires LastDot(fname) >= 0
    ensures LastSegment(fname) == fname[LastDot(fname) + 1..]
  {
    SplitAtLastDot(fname);
  }

  /** A name ending in `ext` whose extension part has no dot of its own
      (".html", ".css", ".js") loses exactly that extension. */
  lemma StripKnownExtension(fname: string, ext: string)
    requires |ext| >= 1 && ext[0] == '.' && '.' !in ext[1..]
    requires HasSuffix(fname, ext)
    ensures StripExtension(fname) == fname[..|fname| - |ext|]
    ensures StripExtension(fname) + ext == fname
  {
    var n := |fname| - |ext|;
    assert fname[n] == '.';
    assert forall j :: n < j < |fname| ==> fname[j] == ext[1..][j - n - 1];
    var k := LastDot(fname);
    assert k == n;
    assert fname == fname[..n] + fname[n..];
  }

  /** The suffix rule of the command-line block: keep a name that already ends
      with `ext`, otherwise append `ext` once. */
  function Normalize(name: string, ext: string): (r: string)
    ensures HasSuffix(r, ext)
    ensures r == name || r == name + ext
    ensures HasSuffix(name, ext) <==> r == name
  {
    if HasSuffix(name, ext) then name
    else
      assert (name + ext)[|name|..] == ext;
      name + ext
  }

  lemma NormalizeIdempotent(name: string, ext: string)
    ensures Normalize(Normalize(name, ext), ext) == Normalize(name, ext)
  {
  }

  /** The main page name: ".html" is appended unless already present. */
  function MainName(name: string): (r: string)
    ensures HasSuffix(r, ".html")
  {
    Normalize(name, ".html")
  }

  /** The title of a page name ending in ".html", followed by ".html", is
      that name again. */
  lemma HtmlTitle(fname: string)
    ensures HasSuffix(fname, ".html") ==> StripExtension(fname) + ".html" == fname
  {
    if HasSuffix(fname, ".html") {
      StripKnownExtension(fname, ".html");
    }
  }

  /** The page title derived from a normalised main name, followed by
      ".html", is that name again. */
  lemma TitleRestoresMainName(name: string)
    ensures StripExtension(MainName(name)) + ".html" == MainName(name)
  {
    HtmlTitle(MainName(name));
  }

  /** The literal argument that switches an artifact off. */
  const Disabled: string := "None"

  /** The CSS/JS argument rule: "None" disables the artifact, anything else is
      normalised to end with `ext`. */
  function ArtifactName(arg: string, ext: string): (r: Option<string>)
    ensures r == None <==> arg == Disabled
    ensures r.Some? ==> HasSuffix(r.value, ext) && (r.value == arg || r.value == arg + ext)
  {
    if arg == Disabled then None else Some(Normalize(arg, ext))
  }

  /** For the CSS and JS extensions a normalised name is never the sentinel,
      so normalising it again changes nothing. */
  lemma ArtifactNameIdempotent(arg: string, ext: string)
    requires ext == ".css" || ext == ".js"
    requires ArtifactName(arg, ext).Some?
    ensures ArtifactName(ArtifactName(arg, ext).value, ext) == ArtifactName(arg, ext)
  {
    var n := ArtifactName(arg, ext).value;
    assert !HasSuffix(Disabled, ext);
  }
}
