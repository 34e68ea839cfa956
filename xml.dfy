/**
 * `Xml::buildRateV4`: the legacy RateV4 request document, built by string
 * concatenation from a payload with a `user_id` and one `package`.
 * `htmlspecialchars` is `Escape`, with the entities of PHP 8.1's default
 * flags (quotes of both kinds are escaped).
 */
module Xml {
  import opened Php

  /** The entity `htmlspecialchars` writes for one character. */
  function EscapeChar(c: char): string {
    if c == '&' then "&amp;"
    else if c == '"' then "&quot;"
    else if c == '\'' then "&#039;"
    else if c == '<' then "&lt;"
    else if c == '>' then "&gt;"
    else [c]
  }

  /** Characters that may not appear raw in escaped text. */
  predicate Markup(c: char) {
    c == '<' || c == '>' || c == '"' || c == '\''
  }

  /** `htmlspecialchars`. */
  function Escape(s: string): (e: string)
    ensures forall i :: 0 <= i < |e| ==> !Markup(e[i])
    ensures |e| >= |s|
  {
    if s == [] then [] else EscapeChar(s[0]) + Escape(s[1..])
  }

  /** `htmlspecialchars_decode` of the five entities `Escape` writes. */
  function Unescape(s: string): string
    decreases |s|
  {
    if s == [] then []
    else if "&amp;" <= s then "&" + Unescape(s[5..])
    else if "&quot;" <= s then "\"" + Unescape(s[6..])
    else if "&#039;" <= s then "'" + Unescape(s[6..])
    else if "&lt;" <= s then "<" + Unescape(s[4..])
    else if "&gt;" <= s then ">" + Unescape(s[4..])
    else [s[0]] + Unescape(s[1..])
  }

  lemma UnescapeAmp(t: string)
    ensures Unescape("&amp;" + t) == "&" + Unescape(t)
  {
    assert ("&amp;" + t)[5..] == t;
  }

  lemma UnescapeQuot(t: string)
    ensures Unescape("&quot;" + t) == "\"" + Unescape(t)
  {
    var s := "&quot;" + t;
    assert s[1] == 'q' && s[6..] == t;
  }

  lemma UnescapeApos(t: string)
    ensures Unescape("&#039;" + t) == "'" + Unescape(t)
  {
    var s := "&#039;" + t;
    assert s[1] == '#' && s[6..] == t;
  }

  lemma UnescapeLt(t: string)
    ensures Unescape("&lt;" + t) == "<" + Unescape(t)
  {
    var s := "&lt;" + t;
    assert s[1] == 'l' && s[4..] == t;
  }

  lemma UnescapeGt(t: string)
    ensures Unescape("&gt;" + t) == ">" + Unescape(t)
  {
    var s := "&gt;" + t;
    assert s[1] == 'g' && s[4..] == t;
  }

  lemma UnescapeEscapeChar(c: char, t: string)
    ensures Unescape(EscapeChar(c) + t) == [c] + Unescape(t)
  {
    if c == '&' {
      UnescapeAmp(t);
    } else if c == '"' {
      UnescapeQuot(t);
    } else if c == '\'' {
      UnescapeApos(t);
    } else if c == '<' {
      UnescapeLt(t);
    } else if c == '>' {
      UnescapeGt(t);
    } else {
      assert ([c] + t)[0] == c && ([c] + t)[1..] == t;
    }
  }

  /** Escaping loses nothing: decoding gives the text back. */
  lemma {:induction false} UnescapeEscape(s: string)
    ensures Unescape(Escape(s)) == s
  {
    if s != [] {
      UnescapeEscapeChar(s[0], Escape(s[1..]));
      UnescapeEscape(s[1..]);
    }
  }

  /** So different texts never escape to the same text. */
  lemma EscapeInjective(s: string, t: string)
    requires Escape(s) == Escape(t)
    ensures s == t
  {
    UnescapeEscape(s);
    UnescapeEscape(t);
  }

  /** The text of `s` before the first `stop`, or all of it. */
  function UpTo(stop: char, s: string): (r: string)
    ensures r <= s && stop !in r
    ensures |r| < |s| ==> s[|r|] == stop
  {
    if s == [] || s[0] == stop then [] else [s[0]] + UpTo(stop, s[1..])
  }

  /** Escaped text followed by a quote or a tag reads back up to that character. */
  lemma {:induction false} UpToEscaped(stop: char, s: string, rest: string)
    requires Markup(stop)
    ensures UpTo(stop, Escape(s) + ([stop] + rest)) == Escape(s)
  {
    UpToPlain(stop, Escape(s), rest);
  }

  lemma {:induction false} UpToPlain(stop: char, e: string, rest: string)
    requires Markup(stop) && forall i :: 0 <= i < |e| ==> !Markup(e[i])
    ensures UpTo(stop, e + ([stop] + rest)) == e
  {
    if e == [] {
      assert (e + ([stop] + rest))[0] == stop;
    } else {
      assert (e + ([stop] + rest))[1..] == e[1..] + ([stop] + rest);
      UpToPlain(stop, e[1..], rest);
    }
  }

  /** The package fields as PHP reads them, before any escaping. */
  datatype RateV4Fields = RateV4Fields(
    userId: string, id: string, ounces: int, zipOrig: string, zipDest: string,
    size: string, container: string, machinable: string)

  /** `(int) round($weight_oz)` on whole ounces. */
  function Ounces(v: Value): int {
    match v
    case JNum(n) => n
    case JBool(b) => if b then 1 else 0
    case _ => IntCast(ToPhpString(v))
  }

  function ReadFields(payload: Dict): RateV4Fields {
    var pkg := AsDict(At(payload, "package"));
    RateV4Fields(
      ToPhpString(At(payload, "user_id")),
      ToPhpString(Or(pkg, "id", JStr("0"))),
      Ounces(Or(pkg, "weight_oz", JNum(0))),
      ToPhpString(At(pkg, "zip_orig")),
      ToPhpString(At(pkg, "zip_dest")),
      ToPhpString(Or(pkg, "size", JStr("REGULAR"))),
      ToPhpString(Or(pkg, "container", JStr(""))),
      if IsSet(pkg, "machinable") then (if Truthy(pkg["machinable"]) then "true" else "false") else "true")
  }

  /** An empty package gets ID "0", no ounces, a regular size, no container and is machinable. */
  lemma ReadFieldsDefaults(userId: string)
    ensures ReadFields(map["user_id" := JStr(userId)]) ==
            RateV4Fields(userId, "0", 0, "", "", "REGULAR", "", "true")
  {
    assert IntToString(0) == "0";
  }

  /** A supplied `machinable` is "true" or "false" by its truthiness; the other fields are read as given. */
  lemma ReadFieldsGiven(payload: Dict)
    ensures var f := ReadFields(payload);
            var pkg := AsDict(At(payload, "package"));
            && (IsSet(pkg, "machinable") ==> (f.machinable == "true" <==> Truthy(pkg["machinable"])))
            && (f.machinable == "true" || f.machinable == "false")
            && (IsSet(pkg, "weight_oz") && pkg["weight_oz"].JNum? ==> f.ounces == pkg["weight_oz"].n)
            && (IsSet(pkg, "size") && pkg["size"].JStr? ==> f.size == pkg["size"].s)
  {
  }

  const UserIdOpen := "<RateV4Request USERID=\""
  const IdOpen := "><Revision>2</Revision><Package ID=\""
  const Close := "</Package></RateV4Request>"

  /** The package elements after the ID attribute, in their fixed order. */
  function PackageElements(f: RateV4Fields): string {
    "><Service>ALL</Service>"
    + "<ZipOrigination>" + Escape(f.zipOrig) + "</ZipOrigination>"
    + "<ZipDestination>" + Escape(f.zipDest) + "</ZipDestination>"
    + "<Pounds>0</Pounds><Ounces>" + IntToString(f.ounces) + "</Ounces>"
    + "<Container>" + Escape(f.container) + "</Container>"
    + "<Size>" + Escape(f.size) + "</Size>"
    + "<Machinable>" + f.machinable + "</Machinable>"
  }

  /** The document with `id` as the text of the ID attribute. */
  function Render(f: RateV4Fields, id: string): string {
    UserIdOpen + (Escape(f.userId) + ("\"" + (IdOpen + (id + ("\"" + (PackageElements(f) + Close))))))
  }

  /** Where the text of the ID attribute starts. */
  function IdStart(f: RateV4Fields): nat {
    |UserIdOpen| + |Escape(f.userId)| + 1 + |IdOpen|
  }

  predicate EndsWith(s: string, suffix: string) {
    |suffix| <= |s| && s[|s| - |suffix|..] == suffix
  }

  lemma EndsWithExtend(a: string, s: string, suffix: string)
    requires EndsWith(s, suffix)
    ensures EndsWith(a + s, suffix)
  {
    assert (a + s)[|a + s| - |suffix|..] == s[|s| - |suffix|..];
  }

  lemma SuffixOfConcat(a: string, b: string)
    ensures (a + b)[|a|..] == b
  {
  }

  /** The document starts with the request element and ends by closing the package and the request. */
  lemma RenderFrame(f: RateV4Fields, id: string)
    ensures UserIdOpen <= Render(f, id)
    ensures EndsWith(Render(f, id), Close)
  {
    var tail := PackageElements(f) + Close;
    assert EndsWith(tail, Close);
    EndsWithExtend("\"", tail, Close);
    EndsWithExtend(id, "\"" + tail, Close);
    EndsWithExtend(IdOpen, id + ("\"" + tail), Close);
    EndsWithExtend("\"", IdOpen + (id + ("\"" + tail)), Close);
    EndsWithExtend(Escape(f.userId), "\"" + (IdOpen + (id + ("\"" + tail))), Close);
    EndsWithExtend(UserIdOpen, Escape(f.userId) + ("\"" + (IdOpen + (id + ("\"" + tail)))), Close);
  }

  /** The text after the ID attribute's opening quote. */
  lemma RenderAtId(f: RateV4Fields, id: string)
    ensures IdStart(f) <= |Render(f, id)|
    ensures Render(f, id)[IdStart(f)..] == id + ("\"" + (PackageElements(f) + Close))
  {
    var x := Render(f, id);
    var r3 := id + ("\"" + (PackageElements(f) + Close));
    var r2 := IdOpen + r3;
    var r1 := "\"" + r2;
    var r0 := Escape(f.userId) + r1;
    SuffixOfConcat(UserIdOpen, r0);
    SuffixOfConcat(Escape(f.userId), r1);
    SuffixOfConcat("\"", r2);
    SuffixOfConcat(IdOpen, r3);
    assert x[|UserIdOpen|..] == r0;
    assert x[|UserIdOpen| + |Escape(f.userId)|..] == r1;
    assert x[|UserIdOpen| + |Escape(f.userId)| + 1..] == r2;
  }

  /** The user ID attribute reads back as the user ID, whatever it contains. */
  lemma RenderUserIdReadsBack(f: RateV4Fields, id: string)
    ensures var x := Render(f, id);
            |UserIdOpen| <= |x| && Unescape(UpTo('"', x[|UserIdOpen|..])) == f.userId
  {
    var rest := IdOpen + (id + ("\"" + (PackageElements(f) + Close)));
    SuffixOfConcat(UserIdOpen, Escape(f.userId) + ("\"" + rest));
    assert "\"" == ['"'];
    UpToEscaped('"', f.userId, rest);
    UnescapeEscape(f.userId);
  }

  /** `buildRateV4` as written: the package ID goes into the attribute unescaped. */
  function BuildRateV4(payload: Dict): string {
    var f := ReadFields(payload);
    Render(f, f.id)
  }

  /** A package ID that is a quote ends the attribute at once: the ID read back is empty. */
  lemma BuildRateV4QuotedId(payload: Dict)
    requires Or(AsDict(At(payload, "package")), "id", JStr("0")) == JStr("\"")
    ensures var f := ReadFields(payload);
            var x := BuildRateV4(payload);
            && f.id == "\""
            && IdStart(f) <= |x|
            && UpTo('"', x[IdStart(f)..]) == ""
            && Unescape(UpTo('"', x[IdStart(f)..])) != f.id
  {
    var f := ReadFields(payload);
    RenderAtId(f, f.id);
  }

  /** The evidently intended `buildRateV4`: the package ID escaped like every other field. */
  function BuildRateV4Escaped(payload: Dict): string {
    var f := ReadFields(payload);
    Render(f, Escape(f.id))
  }

  /** With the ID escaped, both attributes read back exactly, whatever they contain. */
  lemma BuildRateV4EscapedReadsBack(payload: Dict)
    ensures var f := ReadFields(payload);
            var x := BuildRateV4Escaped(payload);
            && |UserIdOpen| <= |x| && Unescape(UpTo('"', x[|UserIdOpen|..])) == f.userId
            && IdStart(f) <= |x| && Unescape(UpTo('"', x[IdStart(f)..])) == f.id
  {
    var f := ReadFields(payload);
    RenderUserIdReadsBack(f, Escape(f.id));
    RenderAtId(f, Escape(f.id));
    assert "\"" == ['"'];
    UpToEscaped('"', f.id, PackageElements(f) + Close);
    UnescapeEscape(f.id);
  }
}
