/** Stamping and stripping of license headers. Text is a sequence of characters. */
module LicenseHeaders {

  datatype Kind = Go | Ts | Proto | Sql | Shell

  datatype License = Apache | Agpl

  // ---------------------------------------------------------------- strings

  predicate IsSpace(c: char) {
    || '\t' <= c <= '\r' || c == ' ' || c == '\U{85}' || c == '\U{A0}' || c == '\U{1680}'
         || '\U{2000}' <= c <= '\U{200A}'
    || c == '\U{2028}' || c == '\U{2029}' || c == '\U{202F}' || c == '\U{205F}' || c == '\U{3000}'
  }

  function TrimLeft(s: string): string {
    if s != [] && IsSpace(s[0]) then TrimLeft(s[1..]) else s
  }

  function TrimRight(s: string): string {
    if s != [] && IsSpace(s[|s| - 1]) then TrimRight(s[..|s| - 1]) else s
  }

  function TrimSpace(s: string): string { TrimRight(TrimLeft(s)) }

  predicate HasPrefix(s: string, p: string) { p <= s }

  predicate Contains(s: string, m: string) {
    HasPrefix(s, m) || (s != [] && Contains(s[1..], m))
  }

  /** The text cut after every newline; the last piece may be empty. */
  function Lines(s: string): (ls: seq<string>)
    ensures |ls| > 0 && ls[0] <= s
  {
    if s == [] then [""] else
      var ls := Lines(s[1..]);
      if s[0] == '\n' then ["\n"] + ls else [[s[0]] + ls[0]] + ls[1..]
  }

  function Join(ls: seq<string>): string {
    if ls == [] then "" else ls[0] + Join(ls[1..])
  }

  lemma {:induction false} JoinLines(s: string)
    ensures Join(Lines(s)) == s
  {
    if s == [] {
    } else {
      JoinLines(s[1..]);
      var ls := Lines(s[1..]);
      assert s == [s[0]] + s[1..];
      if s[0] == '\n' { assert (["\n"] + ls)[1..] == ls; }
      else { assert ([[s[0]] + ls[0]] + ls[1..])[1..] == ls[1..]; }
    }
  }

  /** A whole line: one newline, at the end. */
  predicate IsLine(s: string) {
    s != [] && if |s| == 1 then s[0] == '\n' else s[0] != '\n' && IsLine(s[1..])
  }

  /** A text that starts with a whole line. */
  lemma {:induction false} LineFirst(line: string, rest: string)
    requires IsLine(line)
    ensures Lines(line + rest) == [line] + Lines(rest)
  {
    var s := line + rest;
    if |line| == 1 {
      assert line == "\n" && s[1..] == rest;
    } else {
      LineFirst(line[1..], rest);
      assert s[1..] == line[1..] + rest && s[0] == line[0] && line == [line[0]] + line[1..];
      assert ([line[1..]] + Lines(rest))[1..] == Lines(rest);
    }
  }

  lemma {:induction false} FirstIsLine(s: string)
    requires |Lines(s)| > 1
    ensures IsLine(Lines(s)[0])
  {
    if s[0] == '\n' {
    } else {
      FirstIsLine(s[1..]);
      var l := Lines(s[1..])[0];
      assert ([s[0]] + l)[1..] == l;
    }
  }

  lemma {:induction false} TrimKeepsPrefix(s: string, p: string)
    requires HasPrefix(s, p) && p != [] && !IsSpace(p[0]) && !IsSpace(p[|p| - 1])
    ensures HasPrefix(TrimSpace(s), p)
  {
    assert s[0] == p[0] && TrimLeft(s) == s;
    TrimRightKeepsPrefix(s, p);
  }

  lemma {:induction false} TrimRightKeepsPrefix(s: string, p: string)
    requires HasPrefix(s, p) && p != [] && !IsSpace(p[|p| - 1])
    ensures HasPrefix(TrimRight(s), p)
    decreases |s|
  {
    if IsSpace(s[|s| - 1]) {
      assert |s| != |p|;
      TrimRightKeepsPrefix(s[..|s| - 1], p);
    }
  }

  lemma {:induction false} ContainsMiddle(a: string, m: string, b: string)
    ensures Contains(a + m + b, m)
  {
    if a != [] {
      ContainsMiddle(a[1..], m, b);
      assert (a + m + b)[1..] == a[1..] + m + b;
    } else {
      assert a + m + b == m + b;
    }
  }

  // ---------------------------------------------------------------- headers

  const COPYRIGHT := "Copyright ©"
  const SPDX := "SPDX-License-Identifier"

  const MARKERS: seq<string> := [
    COPYRIGHT, "Licensed under", "Dual-licensed under", "LICENSE", "apache.org/licenses", "repo root", SPDX]

  function CommentPrefix(kind: Kind): string {
    match kind
    case Sql => "--"
    case Shell => "#"
    case _ => "//"
  }

  predicate IsHeaderLine(line: string, prefix: string) {
    HasPrefix(TrimSpace(line), prefix) && HasMarker(line, MARKERS)
  }

  predicate HasMarker(line: string, markers: seq<string>) {
    markers != [] && (Contains(line, markers[0]) || HasMarker(line, markers[1..]))
  }

  lemma {:induction false} HasMarkerAt(line: string, markers: seq<string>, k: nat)
    requires k < |markers| && Contains(line, markers[k])
    ensures HasMarker(line, markers)
  {
    if k == 0 {
    } else {
      HasMarkerAt(line, markers[1..], k - 1);
    }
  }

  predicate IsBlank(line: string) { TrimSpace(line) == "" }

  function LicenseId(license: License): string {
    match license
    case Apache => "Apache-2.0"
    case Agpl => "AGPL-3.0-or-later" + " OR LicenseRef-" + "FallGuy-Commercial"
  }

  function CopyrightLine(kind: Kind): string {
    CommentPrefix(kind) + " " + COPYRIGHT + " 2026 Fall Guy Consulting.\n"
  }

  function LicenseLine(kind: Kind, license: License): string {
    CommentPrefix(kind) + " " + SPDX + (": " + LicenseId(license) + "\n")
  }

  function HeaderFor(kind: Kind, license: License): string {
    CopyrightLine(kind) + LicenseLine(kind, license)
  }

  // ------------------------------------------------------- splice and strip

  /** Whether the first line stays above the header: generated-code marks in Go,
      interpreter lines in TypeScript and shell. */
  predicate KeepsFirst(body: string, kind: Kind) {
    |Lines(body)| > 1 &&
    match kind
    case Go => HasPrefix(Lines(body)[0], "// Code generated")
    case Ts => HasPrefix(Lines(body)[0], "#!")
    case Shell => HasPrefix(Lines(body)[0], "#!")
    case _ => false
  }

  /** What stays above the header, and what goes below it. */
  function Above(body: string, kind: Kind): (a: string)
    ensures a <= body
  {
    if KeepsFirst(body, kind) then Lines(body)[0] else ""
  }

  function Beneath(body: string, kind: Kind): string {
    body[|Above(body, kind)|..]
  }

  function Splice(body: string, header: string, kind: Kind): string {
    Above(body, kind) + header + "\n" + Beneath(body, kind)
  }

  predicate IsPreamble(line: string, kind: Kind) {
    (kind == Go && HasPrefix(TrimSpace(line), "// Code generated")) || HasPrefix(TrimSpace(line), "#!")
  }

  /** Past all header lines from `i` on, and blank lines right before them. */
  function SkipHeader(lines: seq<string>, i: nat, prefix: string): (end: nat)
    requires i <= |lines|
    ensures i <= end <= |lines|
    decreases |lines| - i
  {
    if i == |lines| then i
    else if IsHeaderLine(lines[i], prefix)
        || (IsBlank(lines[i]) && i + 1 < |lines| && IsHeaderLine(lines[i + 1], prefix))
    then SkipHeader(lines, i + 1, prefix)
    else i
  }

  function Strip(body: string, kind: Kind): string {
    var lines := Lines(body);
    var start := if IsPreamble(lines[0], kind) then 1 else 0;
    var end := SkipHeader(lines, start, CommentPrefix(kind));
    if end == start then body
    else Join(lines[..start]) + Join(lines[if end < |lines| && IsBlank(lines[end]) then end + 1 else end..])
  }

  /** The index loop over the lines: where it stops, and whether it saw a header. */
  method ScanHeader(lines: seq<string>, start: nat, prefix: string) returns (end: nat, found: bool)
    requires start <= |lines|
    ensures end == SkipHeader(lines, start, prefix) && (found <==> end > start)
  {
    end, found := start, false;
    while end < |lines|
      invariant start <= end <= |lines| && SkipHeader(lines, start, prefix) == SkipHeader(lines, end, prefix)
      invariant found ==> end > start
      invariant !found && end > start ==> end < |lines| && IsHeaderLine(lines[end], prefix)
    {
      if IsHeaderLine(lines[end], prefix) {
        end, found := end + 1, true;
        continue;
      }
      if IsBlank(lines[end]) && end + 1 < |lines| && IsHeaderLine(lines[end + 1], prefix) {
        end := end + 1;
        continue;
      }
      break;
    }
  }

  method StripLeadingHeader(body: string, kind: Kind) returns (out: string)
    ensures out == Strip(body, kind)
  {
    var lines := Lines(body);
    var start := if IsPreamble(lines[0], kind) then 1 else 0;
    var end, found := ScanHeader(lines, start, CommentPrefix(kind));
    if !found { return body; }
    if end < |lines| && IsBlank(lines[end]) { end := end + 1; }
    var above := JoinLoop(lines[..start]);
    var beneath := JoinLoop(lines[end..]);
    return above + beneath;
  }

  method JoinLoop(ls: seq<string>) returns (out: string)
    ensures out == Join(ls)
  {
    out := "";
    for j := 0 to |ls|
      invariant out + Join(ls[j..]) == Join(ls)
    {
      assert ls[j..][1..] == ls[j + 1..];
      out := out + ls[j];
    }
  }

  // ------------------------------------------------------------- round trip

  lemma MarkedLineIsHeader(prefix: string, marker: string, k: nat, rest: string)
    requires prefix != [] && !IsSpace(prefix[0]) && !IsSpace(prefix[|prefix| - 1]) && k < |MARKERS|
            && MARKERS[k] == marker
    ensures IsHeaderLine(prefix + " " + marker + rest, prefix)
  {
    TrimKeepsPrefix(prefix + " " + marker + rest, prefix);
    ContainsMiddle(prefix + " ", marker, rest);
    HasMarkerAt(prefix + " " + marker + rest, MARKERS, k);
  }

  lemma HeaderLinesAreHeaders(kind: Kind, license: License)
    ensures IsHeaderLine(CopyrightLine(kind), CommentPrefix(kind))
            && IsHeaderLine(LicenseLine(kind, license), CommentPrefix(kind))
  {
    MarkedLineIsHeader(CommentPrefix(kind), COPYRIGHT, 0, " 2026 Fall Guy Consulting.\n");
    MarkedLineIsHeader(CommentPrefix(kind), SPDX, 6, ": " + LicenseId(license) + "\n");
  }

  lemma CopyrightIsNoPreamble(kind: Kind)
    ensures !IsPreamble(CopyrightLine(kind), kind)
  {
    var p := CommentPrefix(kind) + " Cop";
    var c := CopyrightLine(kind);
    assert p <= c;
    TrimKeepsPrefix(c, p);
    var t := TrimSpace(c);
    assert t[|p| - 1] == 'p' && t[1] == p[1];
  }

  lemma {:induction false} TextIsLine(text: string)
    requires '\n' !in text
    ensures IsLine(text + "\n")
  {
    if text == [] {
      assert text + "\n" == "\n";
    } else {
      TextIsLine(text[1..]);
      assert (text + "\n")[1..] == text[1..] + "\n";
    }
  }

  /** Any two header lines that can be stamped. */
  ghost predicate Stampable(c: string, l: string, kind: Kind) {
    && IsLine(c) && IsLine(l) && !IsPreamble(c, kind)
    && IsHeaderLine(c, CommentPrefix(kind)) && IsHeaderLine(l, CommentPrefix(kind))
  }

  lemma HeaderStampable(kind: Kind, license: License)
    ensures Stampable(CopyrightLine(kind), LicenseLine(kind, license), kind)
  {
    CopyrightIsNoPreamble(kind);
    HeaderLinesAreHeaders(kind, license);
    CopyrightIsLine(kind);
    LicenseIsLine(kind, license);
  }

  lemma CopyrightIsLine(kind: Kind)
    ensures IsLine(CopyrightLine(kind))
  {
    var text := CommentPrefix(kind) + " " + COPYRIGHT + " 2026 Fall Guy Consulting.";
    assert '\n' !in " 2026 Fall Guy Consulting." && '\n' !in COPYRIGHT && '\n' !in CommentPrefix(kind) && '\n' !in " ";
    TextIsLine(text);
    assert text + "\n" == CopyrightLine(kind);
  }

  lemma LicenseIsLine(kind: Kind, license: License)
    ensures IsLine(LicenseLine(kind, license))
  {
    var text := CommentPrefix(kind) + " " + SPDX + (": " + LicenseId(license));
    LicenseIdPlain(license);
    SpdxPlain();
    assert '\n' !in CommentPrefix(kind) && '\n' !in " ";
    TextIsLine(text);
    assert text + "\n" == LicenseLine(kind, license);
  }

  lemma SpdxPlain()
    ensures '\n' !in SPDX
  {
    assert SPDX == "SPDX-License" + "-Identifier";
  }

  lemma LicenseIdPlain(license: License)
    ensures '\n' !in ": " + LicenseId(license)
  {
    assert '\n' !in ": ";
    match license {
      case Apache => assert '\n' !in "Apache-2.0";
      case Agpl => assert '\n' !in "AGPL-3.0-or-later" && '\n' !in " OR LicenseRef-" && '\n' !in "FallGuy-Commercial";
    }
    assert '\n' !in LicenseId(license);
  }

  lemma AboveIsLine(body: string, kind: Kind)
    ensures Above(body, kind) + Beneath(body, kind) == body
    ensures KeepsFirst(body, kind) ==> IsLine(Above(body, kind)) && IsPreamble(Above(body, kind), kind)
    ensures !KeepsFirst(body, kind) ==> Above(body, kind) == ""
  {
    if KeepsFirst(body, kind) {
      FirstIsLine(body);
      TrimKeepsPrefix(Above(body, kind), if kind == Go then "// Code generated" else "#!");
    }
  }

  /** The lines of a stamped text. */
  lemma StampedLines(body: string, kind: Kind, c: string, l: string)
    requires IsLine(c) && IsLine(l)
    ensures Lines(Splice(body, c + l, kind))
            == (if KeepsFirst(body, kind) then [Above(body, kind)] else []) + [c, l, "\n"] + Lines(Beneath(body, kind))
  {
    var a, b := Above(body, kind), Beneath(body, kind);
    var t := c + (l + ("\n" + b));
    AboveIsLine(body, kind);
    HeaderLines(c, l, b);
    Regroup(a, c, l, b);
    if KeepsFirst(body, kind) {
      LineFirst(a, t);
      Appended([a], [c, l, "\n"], Lines(b));
    } else {
      Appended([], [c, l, "\n"], Lines(b));
      assert a + t == t;
    }
  }

  lemma {:induction false} ManyLines(body: string)
    ensures |Lines(body)| > 1 <==> '\n' in body
  {
    if body == [] {
    } else {
      ManyLines(body[1..]);
      assert body == [body[0]] + body[1..];
    }
  }

  /** A prefix without a newline is in the first line. */
  lemma {:induction false} FirstLineStarts(body: string, p: string)
    requires '\n' !in p
    ensures HasPrefix(Lines(body)[0], p) <==> HasPrefix(body, p)
  {
    if p == [] || body == [] {
    } else {
      assert p[0] in p && p == [p[0]] + p[1..] && body == [body[0]] + body[1..];
      if body[0] == p[0] {
        FirstLineStarts(body[1..], p[1..]);
        var first := Lines(body[1..])[0];
        assert Lines(body)[0] == [body[0]] + first;
        assert [body[0]] + first == [p[0]] + first;
        assert HasPrefix([p[0]] + first, p) <==> HasPrefix(first, p[1..]);
        assert HasPrefix(body, p) <==> HasPrefix(body[1..], p[1..]);
      } else {
        assert Lines(body)[0][0] == body[0];
      }
    }
  }

  /** An interpreter line of a script and a generated-code mark of a Go file, with a
      line end. */
  predicate StaysFirst(body: string, kind: Kind) {
    '\n' in body && (((kind == Ts || kind == Shell) && "#!" <= body) || (kind == Go && "// Code generated" <= body))
  }

  lemma KeepsFirstMeans(body: string, kind: Kind)
    ensures KeepsFirst(body, kind) <==> StaysFirst(body, kind)
  {
    ManyLines(body);
    if kind == Go {
      assert '\n' !in "// Code generated";
      FirstLineStarts(body, "// Code generated");
    } else if kind == Ts || kind == Shell {
      assert '\n' !in "#!";
      FirstLineStarts(body, "#!");
    }
  }

  /** The first line of a stamped text is the body's own if that has to stay first,
      and the copyright line otherwise; the header and a blank line come next. */
  lemma FirstLineStays(body: string, kind: Kind, license: License)
    ensures var lines := Lines(Splice(body, HeaderFor(kind, license), kind));
            var n := if StaysFirst(body, kind) then 1 else 0;
            && |lines| > n + 2 && (n == 1 ==> lines[0] == Lines(body)[0])
            && lines[n] == CopyrightLine(kind) && lines[n + 1] == LicenseLine(kind, license) && lines[n + 2] == "\n"
  {
    HeaderStampable(kind, license);
    AnyFirstLineStays(body, kind, CopyrightLine(kind), LicenseLine(kind, license));
  }

  lemma AnyFirstLineStays(body: string, kind: Kind, c: string, l: string)
    requires IsLine(c) && IsLine(l)
    ensures var lines := Lines(Splice(body, c + l, kind));
            var n := if StaysFirst(body, kind) then 1 else 0;
            && |lines| > n + 2 && (n == 1 ==> lines[0] == Lines(body)[0])
            && lines[n] == c && lines[n + 1] == l && lines[n + 2] == "\n"
  {
    KeepsFirstMeans(body, kind);
    StampedLines(body, kind, c, l);
  }

  lemma Appended(x: seq<string>, y: seq<string>, z: seq<string>)
    ensures x + y + z == x + (y + z) && (x == [] ==> x + y + z == y + z)
  {
  }

  lemma Regroup(a: string, c: string, l: string, b: string)
    ensures a + (c + l) + "\n" + b == a + (c + (l + ("\n" + b)))
  {
  }

  lemma HeaderLines(c: string, l: string, b: string)
    requires IsLine(c) && IsLine(l)
    ensures Lines(c + (l + ("\n" + b))) == [c, l, "\n"] + Lines(b)
  {
    LineFirst("\n", b);
    LineFirst(l, "\n" + b);
    LineFirst(c, l + ("\n" + b));
    Listed(c, l, "\n", Lines(b));
  }

  lemma Listed(c: string, l: string, n: string, ls: seq<string>)
    ensures [c] + ([l] + ([n] + ls)) == [c, l, n] + ls
  {
  }

  /** Stripping a freshly stamped header gives back the body exactly if the body's
      first line below the header is not a header line itself. */
  lemma StripUndoesSplice(body: string, kind: Kind, license: License)
    ensures var back := Strip(Splice(body, HeaderFor(kind, license), kind), kind);
            && (back == body <==> !IsHeaderLine(Lines(Beneath(body, kind))[0], CommentPrefix(kind)))
            && (back != body ==> |back| < |body|)
  {
    HeaderStampable(kind, license);
    StripUndoesAny(body, kind, CopyrightLine(kind), LicenseLine(kind, license));
  }

  lemma StripUndoesAny(body: string, kind: Kind, c: string, l: string)
    requires Stampable(c, l, kind)
    ensures var back := Strip(Splice(body, c + l, kind), kind);
            && (back == body <==> !IsHeaderLine(Lines(Beneath(body, kind))[0], CommentPrefix(kind)))
            && (back != body ==> |back| < |body|)
  {
    var text := Splice(body, c + l, kind);
    var start := if KeepsFirst(body, kind) then 1 else 0;
    StampedFacts(body, kind, c, l, start);
    StampedScan(Lines(text), start, CommentPrefix(kind));
    if IsHeaderLine(Lines(Beneath(body, kind))[0], CommentPrefix(kind)) {
      StripLoses(body, kind, text, start);
    } else {
      AboveIsLine(body, kind);
    }
  }

  /** Where the pieces of a stamped text lie among its lines. */
  lemma StampedFacts(body: string, kind: Kind, c: string, l: string, start: nat)
    requires Stampable(c, l, kind) && start == if KeepsFirst(body, kind) then 1 else 0
    ensures var lines := Lines(Splice(body, c + l, kind));
            && start + 3 < |lines| && lines[start] == c && lines[start + 1] == l && lines[start + 2] == "\n"
            && lines[start + 3] == Lines(Beneath(body, kind))[0]
            && Join(lines[..start]) == Above(body, kind) && Join(lines[start + 3..]) == Beneath(body, kind)
            && (if IsPreamble(lines[0], kind) then 1 else 0) == start
  {
    var lines := Lines(Splice(body, c + l, kind));
    StampedLines(body, kind, c, l);
    AboveIsLine(body, kind);
    JoinLines(Beneath(body, kind));
    assert lines[start + 3..] == Lines(Beneath(body, kind));
    if KeepsFirst(body, kind) { assert lines[..1] == [Above(body, kind)]; } else { assert lines[..0] == []; }
  }

  lemma StripLoses(body: string, kind: Kind, text: string, start: nat)
    requires var lines := Lines(text);
             && start + 3 < |lines| && Join(lines[..start]) == Above(body, kind)
                  && Join(lines[start + 3..]) == Beneath(body, kind)
             && (if IsPreamble(lines[0], kind) then 1 else 0) == start
                  && IsHeaderLine(lines[start + 3], CommentPrefix(kind))
             && SkipHeader(lines, start, CommentPrefix(kind)) > start + 3
    ensures |Strip(text, kind)| < |body|
  {
    TooMuchGone(body, kind, Lines(text), start, SkipHeader(Lines(text), start, CommentPrefix(kind)));
  }

  lemma StampedScan(lines: seq<string>, start: nat, p: string)
    requires start + 3 < |lines| && IsHeaderLine(lines[start], p) && IsHeaderLine(lines[start + 1], p)
            && lines[start + 2] == "\n" && p != []
    ensures if IsHeaderLine(lines[start + 3], p) then SkipHeader(lines, start, p) > start + 3
            else SkipHeader(lines, start, p) == start + 2
    ensures IsBlank("\n")
  {
    assert TrimLeft("\n") == "";
    assert SkipHeader(lines, start, p) == SkipHeader(lines, start + 1, p) == SkipHeader(lines, start + 2, p);
    assert !IsHeaderLine("\n", p);
    if IsHeaderLine(lines[start + 3], p) {
      assert SkipHeader(lines, start + 2, p) == SkipHeader(lines, start + 3, p) == SkipHeader(lines, start + 4, p);
    }
  }

  lemma HeaderIsNotEmpty(line: string, kind: Kind)
    requires IsHeaderLine(line, CommentPrefix(kind))
    ensures line != ""
  {
  }

  /** Once a line of the body is skipped the rest is shorter than the body. */
  lemma TooMuchGone(body: string, kind: Kind, lines: seq<string>, start: nat, end: nat)
    requires start + 3 < end <= |lines| && IsHeaderLine(lines[start + 3], CommentPrefix(kind))
    requires Join(lines[start + 3..]) == Beneath(body, kind)
    ensures forall j | end <= j <= |lines| :: |Above(body, kind) + Join(lines[j..])| < |body|
  {
    AboveIsLine(body, kind);
    HeaderIsNotEmpty(lines[start + 3], kind);
    forall j | end <= j <= |lines| ensures |Join(lines[j..])| < |Beneath(body, kind)| {
      assert lines[start + 3..][1..] == lines[start + 4..];
      JoinShrinks(lines, start + 4, j);
    }
    assert |body| == |Above(body, kind)| + |Beneath(body, kind)|;
  }

  lemma {:induction false} JoinShrinks(lines: seq<string>, i: nat, j: nat)
    requires i <= j <= |lines|
    ensures |Join(lines[j..])| <= |Join(lines[i..])|
    decreases j - i
  {
    if i == j {
    } else {
      assert lines[i..][1..] == lines[i + 1..];
      JoinShrinks(lines, i + 1, j);
    }
  }

  /** Restamping under another license equals stamping the original, in exactly
      the same cases. */
  lemma RestampIsStamp(body: string, kind: Kind, from: License, to: License)
    ensures Splice(Strip(Splice(body, HeaderFor(kind, from), kind), kind), HeaderFor(kind, to), kind)
            == Splice(body, HeaderFor(kind, to), kind)
            <==> !IsHeaderLine(Lines(Beneath(body, kind))[0], CommentPrefix(kind))
  {
    StripUndoesSplice(body, kind, from);
    var back := Strip(Splice(body, HeaderFor(kind, from), kind), kind);
    SpliceLength(body, HeaderFor(kind, to), kind);
    SpliceLength(back, HeaderFor(kind, to), kind);
  }

  lemma SpliceLength(body: string, header: string, kind: Kind)
    ensures |Splice(body, header, kind)| == |body| + |header| + 1
  {
  }
}
