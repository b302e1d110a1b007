/** The h2c upgrade of a request: its header lines become the header block of stream 1, and that block
    becomes the header lines of an HTTP/2 request again. */
module UpgradeHeader {
  import opened Octets
  import opened Wrappers
  import opened HeaderList

  // ----- strings ------------------------------------------------------------------------------------

  function UpperChar(c: char): char {
    if 'a' <= c <= 'z' then ((c as int) - 32) as char else c
  }

  function Upper(s: string): (r: string)
    ensures |r| == |s|
    ensures forall i :: 0 <= i < |s| ==> r[i] == UpperChar(s[i])
  {
    seq(|s|, i requires 0 <= i < |s| => UpperChar(s[i]))
  }

  /** The letters are raised, and nothing else. */
  lemma CaseIsRaised(c: char)
    ensures forall i :: 0 <= i < 26 ==> UpperChar(LOWER[i]) == UPPER[i]
    ensures c !in LOWER ==> UpperChar(c) == c
  {
    if 'a' <= c <= 'z' {
      assert LOWER[c as int - 97] == c;
    }
  }

  /** The first position from `i` on where `sep` is, or the length. */
  function Index(s: string, sep: string, i: nat): (k: nat)
    requires i <= |s|
    ensures i <= k <= |s|
    ensures k < |s| ==> sep <= s[k..]
    ensures forall j :: i <= j < k ==> !(sep <= s[j..])
    decreases |s| - i
  {
    if i == |s| || sep <= s[i..] then i else Index(s, sep, i + 1)
  }

  /** Python's `line.split (sep, 1)`, unpacked into two. */
  function Split(line: string, sep: string): Option<(string, string)>
    requires sep != []
  {
    var k := Index(line, sep, 0);
    if k == |line| then None else Some((line[..k], line[k + |sep|..]))
  }

  function Join(parts: seq<string>): string {
    if parts == [] then []
    else if |parts| == 1 then parts[0]
    else Join(parts[..|parts| - 1]) + "; " + parts[|parts| - 1]
  }

  // ----- upgrade_header -------------------------------------------------------------------------------

  type Pair = (string, string)

  predicate IsUpgradeField(k: string) {
    k == "http2-settings" || k == "connection" || k == "upgrade"
  }

  /** A header line as a pair; a line without a colon is a ValueError. */
  function PairOf(line: string): Option<Pair> {
    var p := Split(line, ": ");
    var q := if p.Some? then p else Split(line, ":");
    if q.None? then None else Some((Lower(q.value.0), q.value.1))
  }

  function Pairs(lines: seq<string>): Option<seq<Pair>> {
    if lines == [] then Some([])
    else
      var front, last := Pairs(lines[..|lines| - 1]), PairOf(lines[|lines| - 1]);
      if front.None? || last.None? then None
      else Some(front.value + if IsUpgradeField(last.value.0) then [] else [last.value])
  }

  /** `upgrade_header`. */
  function UpgradeBlock(command: string, uri: string, lines: seq<string>): Option<seq<Pair>> {
    var pairs := Pairs(lines);
    if pairs.None? then None else Some([(":method", Upper(command)), (":path", uri)] + pairs.value)
  }

  // ----- handle_request ---------------------------------------------------------------------------------

  /** What `handle_request` makes of a header block; `length` is the text of the last Content-Length. */
  datatype Parsed = Parsed(command: string, uri: string, scheme: string, authority: string, lines: seq<string>,
                           cookies: seq<string>, length: Option<string>)

  const START := Parsed("GET", "/", "http", "", [], [], None)

  function ParsePair(p: Parsed, pair: Pair): Parsed
    requires pair.0 != []
  {
    var (k, v) := pair;
    if k[0] == ':' then
      if k == ":method" then p.(command := Upper(v))
      else if k == ":path" then p.(uri := v)
      else if k == ":scheme" then p.(scheme := Lower(v))
      else if k == ":authority" then
        p.(authority := v, lines := if v == "" then p.lines else p.lines + ["host: " + Lower(v)])
      else p
    else if k == "cookie" then p.(cookies := p.cookies + [v])
    else
      p.(lines := p.lines + [k + ": " + v], length := if k == "content-length" then Some(v) else p.length)
  }

  predicate NoEmptyNames(block: seq<Pair>) {
    forall i :: 0 <= i < |block| ==> block[i].0 != []
  }

  function ParseBlock(block: seq<Pair>): Parsed
    requires NoEmptyNames(block)
  {
    if block == [] then START else ParsePair(ParseBlock(block[..|block| - 1]), block[|block| - 1])
  }

  /** The header lines of the HTTP/2 request. */
  function RequestLines(p: Parsed): seq<string> {
    p.lines + if p.cookies == [] then [] else ["Cookie: " + Join(p.cookies)]
  }

  // ----- the upgrade keeps the request --------------------------------------------------------------------

  function Written(f: Pair): string {
    f.0 + ": " + f.1
  }

  function WrittenAll(fields: seq<Pair>): seq<string> {
    if fields == [] then [] else WrittenAll(fields[..|fields| - 1]) + [Written(fields[|fields| - 1])]
  }

  /** A field name as HTTP has it: not empty, and without a colon. */
  predicate WellNamed(f: Pair) {
    f.0 != [] && ':' !in f.0
  }

  /** The lines that go through the upgrade as they are, but for the case of their names. */
  function Kept(fields: seq<Pair>): seq<string> {
    if fields == [] then []
    else
      var f := fields[|fields| - 1];
      var k := Lower(f.0);
      Kept(fields[..|fields| - 1]) +
      if k == "http2-settings" || k == "connection" || k == "upgrade" || k == "cookie" then [] else [k + ": " + f.1]
  }

  /** Cookies in one line: section 8.1.2.5 of RFC 7540. */
  function CookieLine(cookies: seq<string>): seq<string> {
    if cookies == [] then [] else ["Cookie: " + cookies[0] + Crumbs(cookies[1..])]
  }

  function Crumbs(cookies: seq<string>): string {
    if cookies == [] then "" else "; " + cookies[0] + Crumbs(cookies[1..])
  }

  lemma {:induction false} CrumbsAppend(cookies: seq<string>, last: string)
    ensures Crumbs(cookies + [last]) == Crumbs(cookies) + "; " + last
  {
    if cookies == [] {
      assert [last][1..] == [] && "; " + last + "" == "" + "; " + last;
    } else {
      assert (cookies + [last])[1..] == cookies[1..] + [last];
      CrumbsAppend(cookies[1..], last);
      Associative("; " + cookies[0], Crumbs(cookies[1..]), "; " + last);
      Associative("; " + cookies[0], Crumbs(cookies[1..]) + "; ", last);
      Associative("; " + cookies[0], Crumbs(cookies[1..]), "; ");
    }
  }

  lemma {:induction false} CookiesAreJoined(cookies: seq<string>)
    requires cookies != []
    ensures Join(cookies) == cookies[0] + Crumbs(cookies[1..])
  {
    if |cookies| == 1 {
      assert cookies[1..] == [] && cookies[0] + "" == cookies[0];
    } else {
      var front, last := cookies[..|cookies| - 1], cookies[|cookies| - 1];
      CookiesAreJoined(front);
      assert cookies[1..] == front[1..] + [last];
      CrumbsAppend(front[1..], last);
      hide Crumbs;
      assert Join(cookies) == Join(front) + "; " + last;
      hide Join;
      Associative(front[0] + Crumbs(front[1..]), "; ", last);
      Associative(front[0], Crumbs(front[1..]), "; " + last);
      Associative(Crumbs(front[1..]), "; ", last);
    }
  }

  function Cookies(fields: seq<Pair>): seq<string> {
    if fields == [] then []
    else
      var f := fields[|fields| - 1];
      Cookies(fields[..|fields| - 1]) + if Lower(f.0) == "cookie" then [f.1] else []
  }

  /** What is written "name: value" is split there, whatever the value holds. */
  lemma WrittenIsSplit(f: Pair)
    requires WellNamed(f)
    ensures PairOf(Written(f)) == Some((Lower(f.0), f.1))
  {
    var line, n := Written(f), |f.0|;
    var k := Index(line, ": ", 0);
    assert line[n..] == ": " + f.1 && line[n..][..2] == ": ";
    assert forall j :: 0 <= j < n ==> line[j] == f.0[j];
    assert ": " <= line[k..] ==> line[k..][0] == ':';
    assert line[..n] == f.0 && line[n + 2..] == f.1;
  }

  lemma SeparatorAt(line: string, i: nat)
    requires i < |line|
    ensures ": " <= line[i..] <==> BlankAt(line, i)
    ensures ":" <= line[i..] <==> line[i] == ':'
  {
    assert line[i..][0] == line[i];
    if i + 1 < |line| {
      assert line[i..][1] == line[i + 1];
    }
  }

  predicate BlankAt(line: string, i: nat) {
    i + 1 < |line| && line[i] == ':' && line[i + 1] == ' '
  }

  /** The first place of a separator. */
  lemma IndexIs(line: string, sep: string, j: nat)
    requires j < |line| && sep <= line[j..] && forall i :: 0 <= i < j ==> !(sep <= line[i..])
    ensures Index(line, sep, 0) == j
  {
    assert Index(line, sep, 0) == j;
  }

  /** A line is split at its first ": ", */
  lemma LineIsSplit(line: string, j: nat)
    requires BlankAt(line, j) && forall i :: 0 <= i < j ==> !BlankAt(line, i)
    ensures PairOf(line) == Some((Lower(line[..j]), line[j + 2..]))
  {
    forall i | 0 <= i <= j ensures ": " <= line[i..] <==> BlankAt(line, i) {
      SeparatorAt(line, i);
    }
    hide Lower, BlankAt;
    IndexIs(line, ": ", j);
    hide Index;
  }

  /** and without one at its first colon. */
  lemma LineIsSplitAtColon(line: string, j: nat)
    requires j < |line| && line[j] == ':' && forall i :: 0 <= i < j ==> line[i] != ':'
    requires forall i :: 0 <= i < |line| ==> !BlankAt(line, i)
    ensures PairOf(line) == Some((Lower(line[..j]), line[j + 1..]))
  {
    forall i | 0 <= i < |line| ensures !(": " <= line[i..]) && (":" <= line[i..] <==> line[i] == ':') {
      SeparatorAt(line, i);
    }
    hide Lower, BlankAt;
    IndexIs(line, ":", j);
    assert Index(line, ": ", 0) == |line|;
    hide Index;
  }

  /** The header block of the upgraded request. */
  function PairsKept(fields: seq<Pair>): seq<Pair> {
    if fields == [] then []
    else
      var f := fields[|fields| - 1];
      PairsKept(fields[..|fields| - 1]) + if IsUpgradeField(Lower(f.0)) then [] else [(Lower(f.0), f.1)]
  }

  lemma {:induction false} PairsAreKept(fields: seq<Pair>)
    requires forall f :: f in fields ==> WellNamed(f)
    ensures Pairs(WrittenAll(fields)) == Some(PairsKept(fields))
  {
    if fields != [] {
      var front, f := fields[..|fields| - 1], fields[|fields| - 1];
      assert f in fields && forall x :: x in front ==> x in fields;
      PairsAreKept(front);
      WrittenIsSplit(f);
      hide IsUpgradeField, PairOf, WellNamed, Lower;
      var lines := WrittenAll(fields);
      assert lines[..|lines| - 1] == WrittenAll(front) && lines[|lines| - 1] == Written(f);
    }
  }

  /** The last Content-Length. */
  function LengthOf(fields: seq<Pair>): Option<string> {
    if fields == [] then None
    else if Lower(fields[|fields| - 1].0) == "content-length" then Some(fields[|fields| - 1].1)
    else LengthOf(fields[..|fields| - 1])
  }

  /** The pseudo-fields `upgrade_header` puts in front. */
  function Front(command: string, uri: string): seq<Pair> {
    [(":method", Upper(command)), (":path", uri)]
  }

  lemma UpperTwice(s: string)
    ensures Upper(Upper(s)) == Upper(s) && Lower(Upper(s)) == Lower(s)
  {
  }

  lemma ParseAppend(block: seq<Pair>, pair: Pair)
    requires NoEmptyNames(block) && pair.0 != []
    ensures NoEmptyNames(block + [pair]) && ParseBlock(block + [pair]) == ParsePair(ParseBlock(block), pair)
  {
    assert (block + [pair])[..|block|] == block;
  }

  lemma FrontIsParsed(command: string, uri: string)
    ensures NoEmptyNames(Front(command, uri))
    ensures ParseBlock(Front(command, uri)) == START.(command := Upper(command), uri := uri)
  {
    UpperTwice(command);
    ParseAppend([], (":method", Upper(command)));
    assert [] + [(":method", Upper(command))] == [(":method", Upper(command))];
    ParseAppend([(":method", Upper(command))], (":path", uri));
    assert [(":method", Upper(command))] + [(":path", uri)] == Front(command, uri);
  }

  /** A field that is not a pseudo-field. */
  lemma FieldIsParsed(p: Parsed, f: Pair)
    requires WellNamed(f)
    ensures Lower(f.0) != []
    ensures var k := Lower(f.0);
            ParsePair(p, (k, f.1)) ==
            if k == "cookie" then p.(cookies := p.cookies + [f.1])
            else p.(lines := p.lines + [k + ": " + f.1],
                    length := if k == "content-length" then Some(f.1) else p.length)
  {
    assert Lower(f.0)[0] == LowerChar(f.0[0]);
  }

  lemma {:induction false} FieldsAreParsed(command: string, uri: string, fields: seq<Pair>)
    requires forall f :: f in fields ==> WellNamed(f)
    ensures var block := Front(command, uri) + PairsKept(fields);
            NoEmptyNames(block) && ParseBlock(block) ==
              Parsed(Upper(command), uri, "http", "", Kept(fields), Cookies(fields), LengthOf(fields))
  {
    if fields == [] {
      FrontIsParsed(command, uri);
      assert Front(command, uri) + [] == Front(command, uri);
    } else {
      var front, f := fields[..|fields| - 1], fields[|fields| - 1];
      assert f in fields && forall x :: x in front ==> x in fields;
      FieldsAreParsed(command, uri, front);
      var k := Lower(f.0);
      var block := Front(command, uri) + PairsKept(front);
      FieldIsParsed(ParseBlock(block), f);
      UpgradeFieldsDiffer(k);
      hide Lower, Upper, Front, ParsePair, WellNamed;
      if IsUpgradeField(k) {
        assert PairsKept(fields) == PairsKept(front) && Kept(fields) == Kept(front)
               && Cookies(fields) == Cookies(front);
        assert LengthOf(fields) == LengthOf(front);
      } else {
        hide IsUpgradeField;
        ParseAppend(block, (k, f.1));
        Associative(Front(command, uri), PairsKept(front), [(k, f.1)]);
        assert PairsKept(fields) == PairsKept(front) + [(k, f.1)];
        assert k == "cookie" ==> Kept(fields) == Kept(front) && k != "content-length";
        assert k != "cookie" ==> Cookies(fields) == Cookies(front);
      }
    }
  }

  lemma UpgradeFieldsDiffer(k: string)
    ensures IsUpgradeField(k) ==> k != "cookie" && k != "content-length"
  {
    assert |"http2-settings"| == |"content-length"| && "http2-settings"[0] != "content-length"[0];
  }

  /** For header lines written "name: value", the upgrade yields the same method and path, and the lines
      in order with their names in lower case, but for the three upgrade fields, and with all cookies
      in one last line: sections 3.2 and 8.1.2.5 of RFC 7540. */
  lemma UpgradeKeepsRequest(command: string, uri: string, fields: seq<Pair>)
    requires forall f :: f in fields ==> WellNamed(f)
    ensures var block := UpgradeBlock(command, uri, WrittenAll(fields));
            && block.Some? && NoEmptyNames(block.value)
            && var p := ParseBlock(block.value);
               && p.command == Upper(command) && p.uri == uri && p.length == LengthOf(fields)
               && RequestLines(p) == Kept(fields) + CookieLine(Cookies(fields))
  {
    PairsAreKept(fields);
    FieldsAreParsed(command, uri, fields);
    LinesAndCookies(ParseBlock(Front(command, uri) + PairsKept(fields)));
    hide Upper, Lower, ParseBlock, Kept, Cookies, LengthOf, Join, CookieLine, RequestLines;
  }

  lemma LinesAndCookies(p: Parsed)
    ensures RequestLines(p) == p.lines + CookieLine(p.cookies)
  {
    if p.cookies != [] {
      CookiesAreJoined(p.cookies);
      Associative("Cookie: ", p.cookies[0], Crumbs(p.cookies[1..]));
    }
    hide Join, Crumbs;
  }

  // ----- a request of HTTP/2 itself -------------------------------------------------------------------------

  /** The lines of the fields of a header block, in order, but for the cookies. */
  function Lines(fields: seq<Pair>): seq<string> {
    if fields == [] then []
    else
      var f := fields[|fields| - 1];
      Lines(fields[..|fields| - 1]) + if f.0 == "cookie" then [] else [f.0 + ": " + f.1]
  }

  function CookieValues(fields: seq<Pair>): seq<string> {
    if fields == [] then []
    else
      var f := fields[|fields| - 1];
      CookieValues(fields[..|fields| - 1]) + if f.0 == "cookie" then [f.1] else []
  }

  function LastLength(fields: seq<Pair>): Option<string> {
    if fields == [] then None
    else if fields[|fields| - 1].0 == "content-length" then Some(fields[|fields| - 1].1)
    else LastLength(fields[..|fields| - 1])
  }

  function Pseudo(command: string, scheme: string, authority: string, path: string): seq<Pair> {
    [(":method", command), (":scheme", scheme), (":authority", authority), (":path", path)]
  }

  lemma PseudoIsParsed(command: string, scheme: string, authority: string, path: string)
    ensures NoEmptyNames(Pseudo(command, scheme, authority, path))
    ensures ParseBlock(Pseudo(command, scheme, authority, path)) ==
            Parsed(Upper(command), path, Lower(scheme), authority,
                   if authority == "" then [] else ["host: " + Lower(authority)], [], None)
  {
    hide Lower, Upper;
    var a, b, c, d := (":method", command), (":scheme", scheme), (":authority", authority), (":path", path);
    ParseAppend([], a);
    ParseAppend([a], b);
    ParseAppend([a, b], c);
    ParseAppend([a, b, c], d);
    assert [] + [a] == [a] && [a] + [b] == [a, b] && [a, b] + [c] == [a, b, c] && [a, b, c] + [d] == [a, b, c, d];
    assert ParseBlock([]) == START;
    var host := "host: " + Lower(authority);
    assert [] + [host] == [host];
  }

  lemma {:induction false} BlockIsParsed(pseudo: seq<Pair>, fields: seq<Pair>)
    requires NoEmptyNames(pseudo) && forall f :: f in fields ==> WellNamed(f)
    requires ParseBlock(pseudo).cookies == [] && ParseBlock(pseudo).length == None
    ensures NoEmptyNames(pseudo + fields)
    ensures var p, before := ParseBlock(pseudo + fields), ParseBlock(pseudo);
            p == before.(lines := before.lines + Lines(fields), cookies := CookieValues(fields),
                         length := LastLength(fields))
  {
    if fields == [] {
      assert pseudo + [] == pseudo && ParseBlock(pseudo).lines + [] == ParseBlock(pseudo).lines;
    } else {
      var front, f := fields[..|fields| - 1], fields[|fields| - 1];
      assert f in fields && forall x :: x in front ==> x in fields;
      BlockIsParsed(pseudo, front);
      assert pseudo + fields == pseudo + front + [f];
      ParseAppend(pseudo + front, f);
      hide ParseBlock, Lower, Upper, NoEmptyNames;
      FieldAsItIs(ParseBlock(pseudo + front), f);
      Associative(ParseBlock(pseudo).lines, Lines(front), [f.0 + ": " + f.1]);
      hide ParsePair, WellNamed;
    }
  }

  lemma FieldAsItIs(p: Parsed, f: Pair)
    requires WellNamed(f)
    ensures ParsePair(p, f) ==
            if f.0 == "cookie" then p.(cookies := p.cookies + [f.1])
            else p.(lines := p.lines + [f.0 + ": " + f.1],
                    length := if f.0 == "content-length" then Some(f.1) else p.length)
  {
    assert f.0[0] in f.0;
  }

  /** What is not said: the method is GET then, the path "/" and the scheme "http". */
  lemma NothingIsSaid(fields: seq<Pair>)
    requires forall f :: f in fields ==> WellNamed(f)
    ensures NoEmptyNames(fields)
    ensures var p := ParseBlock(fields);
            && p.command == "GET" && p.uri == "/" && p.scheme == "http" && p.authority == ""
            && RequestLines(p) == Lines(fields) + CookieLine(CookieValues(fields))
  {
    assert [] + fields == fields && [] + Lines(fields) == Lines(fields) && ParseBlock([]) == START;
    BlockIsParsed([], fields);
    LinesAndCookies(ParseBlock(fields));
    hide ParseBlock, Lines, CookieValues, CookieLine, RequestLines, NoEmptyNames, WellNamed;
  }

  /** `handle_request` on a block of HTTP/2: the method in upper case, the path, a host line in lower case
      for an authority that is not empty, the fields in order, and the cookies in one last line. */
  lemma BlockIsRequest(command: string, scheme: string, authority: string, path: string, fields: seq<Pair>)
    requires forall f :: f in fields ==> WellNamed(f)
    ensures var block := Pseudo(command, scheme, authority, path) + fields;
            && NoEmptyNames(block)
            && var p := ParseBlock(block);
               && p.command == Upper(command) && p.uri == path && p.scheme == Lower(scheme) && p.authority == authority
               && p.length == LastLength(fields)
               && RequestLines(p) ==
                  (if authority == "" then [] else ["host: " + Lower(authority)]) + Lines(fields)
                  + CookieLine(CookieValues(fields))
  {
    PseudoIsParsed(command, scheme, authority, path);
    BlockIsParsed(Pseudo(command, scheme, authority, path), fields);
    LinesAndCookies(ParseBlock(Pseudo(command, scheme, authority, path) + fields));
    hide Upper, Lower, ParseBlock, Lines, CookieValues, LastLength, CookieLine, RequestLines, Pseudo, NoEmptyNames;
  }

  /** The upgrade raises exactly when a header line has no colon. */
  lemma {:induction false} UpgradeRaisesIff(command: string, uri: string, lines: seq<string>)
    ensures UpgradeBlock(command, uri, lines).None? <==> exists i :: 0 <= i < |lines| && ':' !in lines[i]
  {
    if lines != [] {
      var front, last := lines[..|lines| - 1], lines[|lines| - 1];
      UpgradeRaisesIff(command, uri, front);
      NoPairIff(last);
      hide PairOf, Upper;
      assert forall i :: 0 <= i < |front| ==> front[i] == lines[i];
    }
  }

  lemma NoPairIff(line: string)
    ensures PairOf(line).None? <==> ':' !in line
  {
    var j, k := Index(line, ": ", 0), Index(line, ":", 0);
    assert j < |line| ==> line[j..][0] == ':' && line[j..][0] == line[j];
    assert k < |line| ==> line[k..][0] == ':' && line[k..][0] == line[k];
    assert forall i :: 0 <= i < |line| && line[i] == ':' ==> ":" <= line[i..];
  }

  // ----- the loops ----------------------------------------------------------------------------------------

  method UpgradeHeader(command: string, uri: string, lines: seq<string>) returns (block: Option<seq<Pair>>)
    ensures block == UpgradeBlock(command, uri, lines)
  {
    hide PairOf, IsUpgradeField, Upper;
    var headers := [(":method", Upper(command)), (":path", uri)];
    ghost var front := headers;
    for i := 0 to |lines|
      invariant Pairs(lines[..i]).Some? && headers == front + Pairs(lines[..i]).value
    {
      assert lines[..i + 1][..i] == lines[..i];
      var pair := PairOf(lines[i]);
      if pair.None? {
        NoPair(lines, i);
        return None;
      }
      if !IsUpgradeField(pair.value.0) {
        headers := headers + [pair.value];
      }
    }
    assert lines[..|lines|] == lines;
    block := Some(headers);
  }

  lemma {:induction false} NoPair(lines: seq<string>, i: nat)
    requires i < |lines| && PairOf(lines[i]).None?
    ensures Pairs(lines).None?
  {
    if i < |lines| - 1 {
      NoPair(lines[..|lines| - 1], i);
    }
  }

  method HandleRequest(block: seq<Pair>) returns (command: string, uri: string, lines: seq<string>)
    requires NoEmptyNames(block)
    ensures var p := ParseBlock(block); (command, uri, lines) == (p.command, p.uri, RequestLines(p))
  {
    hide Lower, Upper;
    var scheme, authority, cookies, length := "http", "", [], None;
    command, uri, lines := "GET", "/", [];
    for i := 0 to |block|
      invariant Parsed(command, uri, scheme, authority, lines, cookies, length) == ParseBlock(block[..i])
    {
      assert block[..i + 1] == block[..i] + [block[i]];
      ParseAppend(block[..i], block[i]);
      var (k, v) := block[i];
      if k[0] == ':' {
        if k == ":method" {
          command := Upper(v);
        } else if k == ":path" {
          uri := v;
        } else if k == ":scheme" {
          scheme := Lower(v);
        } else if k == ":authority" {
          authority := v;
          if v != "" {
            lines := lines + ["host: " + Lower(v)];
          }
        }
      } else {
        if k == "content-length" {
          length := Some(v);
        }
        if k == "cookie" {
          cookies := cookies + [v];
        } else {
          lines := lines + [k + ": " + v];
        }
      }
    }
    assert block[..|block|] == block;
    assert lines + [] == lines;
    if cookies != [] {
      lines := lines + ["Cookie: " + Join(cookies)];
    }
  }
}
