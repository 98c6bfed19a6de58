/** Item keys: lower-case words of ASCII letters and digits, joined by single underscores. */
module Slugs {

  predicate IsAlnum(c: char) {
    'a' <= c <= 'z' || 'A' <= c <= 'Z' || '0' <= c <= '9'
  }

  function LowerChar(c: char): char {
    if 'A' <= c <= 'Z' then c - 'A' + 'a' else c
  }

  function LowerAll(s: string): (r: string)
    ensures |r| == |s| && forall i :: 0 <= i < |s| ==> r[i] == LowerChar(s[i])
  {
    if s == [] then [] else [LowerChar(s[0])] + LowerAll(s[1..])
  }

  /** Length of the leading run of letters and digits. */
  function WordEnd(s: string): (k: nat)
    ensures k <= |s| && (forall i :: 0 <= i < k ==> IsAlnum(s[i])) && (k < |s| ==> !IsAlnum(s[k]))
  {
    if s == [] || !IsAlnum(s[0]) then 0 else 1 + WordEnd(s[1..])
  }

  /** The maximal runs of letters and digits, in lower case. */
  function Words(s: string): seq<string>
    decreases |s|
  {
    if s == [] then []
    else if !IsAlnum(s[0]) then Words(s[1..])
    else [LowerAll(s[..WordEnd(s)])] + Words(s[WordEnd(s)..])
  }

  function Join(ws: seq<string>): string {
    if ws == [] then "" else if |ws| == 1 then ws[0] else ws[0] + "_" + Join(ws[1..])
  }

  function Slug(s: string): string {
    Join(Words(s))
  }

  // --- The loop ---

  /** What is still to come when the last character written was a letter or digit. */
  function Continuation(s: string): string {
    var k := WordEnd(s);
    LowerAll(s[..k]) + (if Words(s[k..]) == [] then "" else "_" + Slug(s[k..]))
  }

  function Chop(s: string): string {
    if s != [] && s[|s| - 1] == '_' then s[..|s| - 1] else s
  }

  lemma ExtendWord(s: string)
    requires s != [] && IsAlnum(s[0])
    ensures Continuation(s) == [LowerChar(s[0])] + Continuation(s[1..])
  {
    var k := WordEnd(s);
    assert s[..k] == [s[0]] + s[1..][..k - 1] && s[k..] == s[1..][k - 1..];
    assert LowerAll(s[..k]) == [LowerChar(s[0])] + LowerAll(s[1..][..k - 1]);
  }

  lemma SlugIsContinuation(s: string)
    requires s != [] && IsAlnum(s[0])
    ensures Words(s) != [] && Slug(s) == Continuation(s)
  {
    JoinCons(LowerAll(s[..WordEnd(s)]), Words(s[WordEnd(s)..]));
  }

  lemma JoinCons(w: string, ws: seq<string>)
    ensures Join([w] + ws) == w + (if ws == [] then "" else "_" + Join(ws))
  {
    assert ([w] + ws)[1..] == ws;
    if ws != [] { assert w + "_" + Join(ws) == w + ("_" + Join(ws)); }
  }

  lemma LeaveWord(s: string)
    requires s != [] && !IsAlnum(s[0])
    ensures Words(s) == Words(s[1..])
    ensures Continuation(s) == if Words(s[1..]) == [] then "" else "_" + Slug(s[1..])
  {
    assert s[0..] == s;
  }

  /** What has been written, together with what is still to be read, makes the target. */
  predicate OnTrack(slug: string, prevWasSep: bool, rest: string, target: string) {
    if prevWasSep then
      && (slug == [] || slug[|slug| - 1] == '_')
      && target == (if Words(rest) == [] then Chop(slug) else slug + Slug(rest))
    else
      slug != [] && slug[|slug| - 1] != '_' && target == slug + Continuation(rest)
  }

  lemma WriteLetter(slug: string, prevWasSep: bool, rest: string, target: string)
    requires OnTrack(slug, prevWasSep, rest, target) && rest != [] && IsAlnum(rest[0])
    ensures OnTrack(slug + [LowerChar(rest[0])], false, rest[1..], target)
  {
    LetterContinues(slug, prevWasSep, rest, target);
    ExtendWord(rest);
    Append3(slug, LowerChar(rest[0]), Continuation(rest[1..]));
  }

  lemma LetterContinues(slug: string, prevWasSep: bool, rest: string, target: string)
    requires OnTrack(slug, prevWasSep, rest, target) && rest != [] && IsAlnum(rest[0])
    ensures target == slug + Continuation(rest)
  {
    SlugIsContinuation(rest);
  }

  lemma Append3(a: string, c: char, b: string)
    ensures a + ([c] + b) == a + [c] + b
  {
  }

  lemma SkipSeparator(slug: string, rest: string, target: string)
    requires OnTrack(slug, true, rest, target) && rest != [] && !IsAlnum(rest[0])
    ensures OnTrack(slug, true, rest[1..], target)
  {
    LeaveWord(rest);
  }

  lemma CloseWord(slug: string, rest: string, target: string)
    requires OnTrack(slug, false, rest, target) && rest != [] && !IsAlnum(rest[0])
    ensures OnTrack(slug + "_", true, rest[1..], target)
  {
    LeaveWord(rest);
    assert Chop(slug + "_") == slug;
    if Words(rest[1..]) == [] {
      assert slug + "" == slug;
    } else {
      AppendBar(slug, Slug(rest[1..]));
    }
  }

  lemma AppendBar(a: string, b: string)
    ensures a + ("_" + b) == a + "_" + b
  {
  }

  lemma MeetSeparator(slug: string, prevWasSep: bool, rest: string, target: string)
    requires OnTrack(slug, prevWasSep, rest, target) && rest != [] && !IsAlnum(rest[0])
    ensures OnTrack(if prevWasSep then slug else slug + "_", true, rest[1..], target)
  {
    if prevWasSep {
      SkipSeparator(slug, rest, target);
    } else {
      CloseWord(slug, rest, target);
    }
  }

  lemma Finish(slug: string, prevWasSep: bool, target: string)
    requires OnTrack(slug, prevWasSep, "", target)
    ensures target == Chop(slug)
  {
    assert Continuation("") == "";
  }

  lemma Start(input: string)
    ensures OnTrack("", true, input, Slug(input))
  {
  }

  /** One character read, in either case. */
  lemma ReadOne(slug: string, prevWasSep: bool, input: string, i: nat, target: string)
    requires i < |input| && OnTrack(slug, prevWasSep, input[i..], target)
    ensures IsAlnum(input[i]) ==> OnTrack(slug + [LowerChar(input[i])], false, input[i + 1..], target)
    ensures !IsAlnum(input[i]) ==> OnTrack(if prevWasSep then slug else slug + "_", true, input[i + 1..], target)
  {
    var rest := input[i..];
    assert rest[0] == input[i] && rest[1..] == input[i + 1..];
    if IsAlnum(input[i]) {
      WriteLetter(slug, prevWasSep, rest, target);
    } else {
      MeetSeparator(slug, prevWasSep, rest, target);
    }
  }

  method Slugify(input: string) returns (slug: string)
    ensures slug == Slug(input)
  {
    slug := [];
    var prevWasSep := true;
    var i := 0;
    Start(input);
    assert input[0..] == input;
    while i < |input|
      invariant 0 <= i <= |input| && OnTrack(slug, prevWasSep, input[i..], Slug(input))
    {
      var c := input[i];
      ReadOne(slug, prevWasSep, input, i, Slug(input));
      if IsAlnum(c) {
        slug := slug + [LowerChar(c)];
        prevWasSep := false;
      } else if !prevWasSep {
        slug := slug + "_";
        prevWasSep := true;
      }
      i := i + 1;
    }
    assert input[i..] == "";
    Finish(slug, prevWasSep, Slug(input));
    if slug != [] && slug[|slug| - 1] == '_' {
      slug := slug[..|slug| - 1];
    }
  }

  // --- Its fixed points ---

  predicate IsWordChar(c: char) {
    'a' <= c <= 'z' || '0' <= c <= '9'
  }

  predicate IsWord(w: string) {
    w != [] && forall i :: 0 <= i < |w| ==> IsWordChar(w[i])
  }

  /** Word characters and underscores, none leading, trailing or doubled; the empty string qualifies. */
  predicate IsSlug(s: string) {
    && (forall i :: 0 <= i < |s| ==> IsWordChar(s[i]) || s[i] == '_')
    && (s != [] ==> s[0] != '_' && s[|s| - 1] != '_')
    && forall i :: 0 < i < |s| ==> s[i] != '_' || s[i - 1] != '_'
  }

  lemma {:induction false} WordsAreWords(s: string)
    ensures forall w :: w in Words(s) ==> IsWord(w)
    decreases |s|
  {
    if s == [] {
    } else if !IsAlnum(s[0]) {
      WordsAreWords(s[1..]);
    } else {
      WordsAreWords(s[WordEnd(s)..]);
    }
  }

  lemma {:induction false} JoinIsSlug(ws: seq<string>)
    requires forall w :: w in ws ==> IsWord(w)
    ensures IsSlug(Join(ws)) && (ws != [] ==> Join(ws) != [])
  {
    if |ws| >= 2 {
      JoinIsSlug(ws[1..]);
      GlueIsSlug(ws[0], Join(ws[1..]));
    } else if |ws| == 1 {
      assert ws[0] in ws;
    }
  }

  lemma GlueIsSlug(w: string, s: string)
    requires IsWord(w) && IsSlug(s) && s != []
    ensures IsSlug(w + "_" + s)
  {
    var r := w + "_" + s;
    forall i | 0 < i < |r| ensures r[i] != '_' || r[i - 1] != '_' {
      if i > |w| + 1 { assert r[i] == s[i - |w| - 1] && r[i - 1] == s[i - |w| - 2]; }
    }
  }

  lemma RestIsSlug(s: string, k: nat)
    requires IsSlug(s) && k < |s| && s[k] == '_'
    ensures k + 1 < |s| && s[k + 1] != '_' && IsSlug(s[k + 1..])
  {
    var rest := s[k + 1..];
    assert s[k + 1] != '_';
    forall i | 0 < i < |rest| ensures rest[i] != '_' || rest[i - 1] != '_' {
      assert rest[i] == s[i + k + 1] && rest[i - 1] == s[i + k];
    }
  }

  lemma FirstWordIsKept(s: string)
    requires IsSlug(s) && s != []
    ensures var k := WordEnd(s); k > 0 && LowerAll(s[..k]) == s[..k] && (k < |s| ==> s[k] == '_')
  {
    assert IsWordChar(s[0]);
  }

  lemma {:induction false} WellFormedIsFixed(s: string)
    requires IsSlug(s)
    ensures Slug(s) == s
    decreases |s|
  {
    if s != [] {
      var k := WordEnd(s);
      FirstWordIsKept(s);
      SlugIsContinuation(s);
      if k < |s| {
        RestIsSlug(s, k);
        WellFormedIsFixed(s[k + 1..]);
        FixedTail(s, k);
      } else {
        assert s[..k] == s && s[k..] == [];
      }
    }
  }

  lemma FixedTail(s: string, k: nat)
    requires k + 1 < |s| && s[k] == '_' && s[k + 1] != '_' && IsSlug(s[k + 1..]) && Slug(s[k + 1..]) == s[k + 1..]
    ensures Words(s[k..]) != [] && s[..k] + ("_" + Slug(s[k..])) == s
  {
    LeaveWord(s[k..]);
    assert s[k..][1..] == s[k + 1..];
    assert IsWordChar(s[k + 1..][0]);
    SlugIsContinuation(s[k + 1..]);
    assert s == s[..k] + ("_" + s[k + 1..]);
  }

  /** The fixed points are exactly the well-formed slugs, and every result is one. */
  lemma FixedPointsAreTheSlugs(s: string)
    ensures IsSlug(Slug(s)) && Slug(Slug(s)) == Slug(s)
    ensures Slug(s) == s <==> IsSlug(s)
  {
    WordsAreWords(s);
    JoinIsSlug(Words(s));
    WellFormedIsFixed(Slug(s));
    if IsSlug(s) { WellFormedIsFixed(s); }
  }

  // --- Its laws ---

  /** Two slugs side by side. */
  function Glue(a: string, b: string): string {
    if a == "" then b else if b == "" then a else a + "_" + b
  }

  /** A run of letters and digits becomes itself, in lower case. */
  lemma WordIsLowered(w: string)
    requires forall i :: 0 <= i < |w| ==> IsAlnum(w[i])
    ensures Slug(w) == LowerAll(w)
  {
    if w != [] {
      var k := WordEnd(w);
      assert k == |w| && w[..k] == w && w[k..] == [];
      assert Words(w) == [LowerAll(w)] + [];
    }
  }

  lemma WordEndAtSeparator(a: string, c: char, b: string)
    requires !IsAlnum(c)
    ensures WordEnd(a + [c] + b) == WordEnd(a)
  {
    var s, k := a + [c] + b, WordEnd(a);
    WordEndIs(s, k);
  }

  lemma {:induction false} WordEndIs(s: string, k: nat)
    requires k < |s| && (forall i :: 0 <= i < k ==> IsAlnum(s[i])) && !IsAlnum(s[k])
    ensures WordEnd(s) == k
  {
    if k > 0 { WordEndIs(s[1..], k - 1); }
  }

  lemma {:induction false} WordsSplit(a: string, c: char, b: string)
    requires !IsAlnum(c)
    ensures Words(a + [c] + b) == Words(a) + Words(b)
    decreases |a|
  {
    var s := a + [c] + b;
    if a == [] {
      assert s[1..] == b;
    } else if !IsAlnum(a[0]) {
      assert s[1..] == a[1..] + [c] + b;
      WordsSplit(a[1..], c, b);
    } else {
      var k := WordEnd(a);
      WordEndAtSeparator(a, c, b);
      assert s[..k] == a[..k] && s[k..] == a[k..] + [c] + b;
      WordsSplit(a[k..], c, b);
      assert [LowerAll(a[..k])] + (Words(a[k..]) + Words(b)) == [LowerAll(a[..k])] + Words(a[k..]) + Words(b);
    }
  }

  lemma {:induction false} JoinGlues(ws: seq<string>, vs: seq<string>)
    requires (forall w :: w in ws ==> IsWord(w)) && forall w :: w in vs ==> IsWord(w)
    ensures Join(ws + vs) == Glue(Join(ws), Join(vs))
  {
    JoinIsSlug(ws);
    JoinIsSlug(vs);
    if ws == [] {
      assert ws + vs == vs;
    } else {
      JoinGlues(ws[1..], vs);
      JoinIsSlug(ws[1..]);
      assert ws + vs == [ws[0]] + (ws[1..] + vs) && ws == [ws[0]] + ws[1..];
      JoinCons(ws[0], ws[1..] + vs);
      JoinCons(ws[0], ws[1..]);
      GlueOnto(ws[0], Join(ws[1..]), Join(vs), ws[1..] == [], vs == []);
    }
  }

  lemma GlueOnto(w: string, x: string, y: string, noX: bool, noY: bool)
    requires w != "" && (noX <==> x == "") && (noY <==> y == "")
    ensures Glue(w + (if noX then "" else "_" + x), y) == w + (if Glue(x, y) == "" then "" else "_" + Glue(x, y))
  {
    if !noX && !noY { assert w + ("_" + x) + "_" + y == w + ("_" + (x + "_" + y)); }
    if noX && !noY { assert w + "" + "_" + y == w + ("_" + y); }
    if noY { assert w + (if noX then "" else "_" + x) == w + (if x == "" then "" else "_" + x); }
  }

  /**
   Whatever is no letter or digit parts what is before it from what is behind it, and leaves an underscore
   if there is something on both sides. With `WordIsLowered` this says what the slug of any text is.
   */
  lemma SeparatorsPart(a: string, c: char, b: string)
    requires !IsAlnum(c)
    ensures Slug(a + [c] + b) == Glue(Slug(a), Slug(b))
  {
    WordsSplit(a, c, b);
    WordsAreWords(a);
    WordsAreWords(b);
    JoinGlues(Words(a), Words(b));
  }

  /** The same character, up to the case of a letter. */
  predicate SameLetter(c: char, d: char) {
    c == d || ('A' <= c <= 'Z' && d as int == c as int + 32) || ('A' <= d <= 'Z' && c as int == d as int + 32)
  }

  predicate SameLetters(s: string, t: string) {
    |s| == |t| && forall i :: 0 <= i < |s| ==> SameLetter(s[i], t[i])
  }

  lemma SameLetterAlike(c: char, d: char)
    requires SameLetter(c, d)
    ensures LowerChar(c) == LowerChar(d) && (IsAlnum(c) <==> IsAlnum(d))
  {
  }

  lemma SameLettersLower(s: string, t: string)
    requires SameLetters(s, t)
    ensures LowerAll(s) == LowerAll(t)
  {
    forall i | 0 <= i < |s| ensures LowerChar(s[i]) == LowerChar(t[i]) {
      SameLetterAlike(s[i], t[i]);
    }
  }

  lemma {:induction false} SameWordEnd(s: string, t: string)
    requires SameLetters(s, t)
    ensures WordEnd(s) == WordEnd(t)
  {
    if s != [] {
      SameLetterAlike(s[0], t[0]);
      SameWordEnd(s[1..], t[1..]);
    }
  }

  lemma {:induction false} SameWords(s: string, t: string)
    requires SameLetters(s, t)
    ensures Words(s) == Words(t)
    decreases |s|
  {
    if s != [] {
      SameLetterAlike(s[0], t[0]);
      SameWordEnd(s, t);
      var k := WordEnd(s);
      if IsAlnum(s[0]) {
        SameLettersLower(s[..k], t[..k]);
        SameWords(s[k..], t[k..]);
      } else {
        SameWords(s[1..], t[1..]);
      }
    }
  }

  /** The case of letters does not matter. */
  lemma CaseIsIgnored(s: string, t: string)
    requires SameLetters(s, t)
    ensures Slug(s) == Slug(t)
  {
    SameWords(s, t);
  }
}
