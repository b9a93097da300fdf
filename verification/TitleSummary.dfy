/**
 summarizeForTitle: the fallback title that a user message gives its session. The words are
 joined by single spaces; a Go string is its UTF-8 bytes, and the limit counts bytes.
 */
module TitleSummary {
  import opened Sequences

  newtype byte = b: int | 0 <= b < 256

  const MAX_TITLE := 80
  const ELLIPSIS := '\U{2026}'

  /** unicode.IsSpace */
  predicate IsSpace(c: char) {
    || '\t' <= c <= '\r' || '\U{2000}' <= c <= '\U{200A}'
    || c in {' ', '\U{85}', '\U{A0}', '\U{1680}', '\U{2028}', '\U{2029}', '\U{202F}', '\U{205F}', '\U{3000}'}
  }

  function NotSpace(): char -> bool {
    c => !IsSpace(c)
  }

  function TrimLeft(s: string): string {
    if s == "" || !IsSpace(s[0]) then s else TrimLeft(s[1..])
  }

  function TrimRight(s: string): string {
    if s == "" || !IsSpace(s[|s| - 1]) then s else TrimRight(s[..|s| - 1])
  }

  function TrimSpace(s: string): string {
    TrimRight(TrimLeft(s))
  }

  function WordLength(s: string): (n: nat)
    ensures n <= |s| && forall k :: 0 <= k < n ==> !IsSpace(s[k])
    ensures n < |s| ==> IsSpace(s[n])
  {
    if s == "" || IsSpace(s[0]) then 0 else 1 + WordLength(s[1..])
  }

  /** strings.Fields */
  function Fields(s: string): seq<string>
    decreases |s|
  {
    if s == "" then []
    else if IsSpace(s[0]) then Fields(s[1..])
    else [s[..WordLength(s)]] + Fields(s[WordLength(s)..])
  }

  function JoinWords(words: seq<string>): string {
    if words == [] then ""
    else if |words| == 1 then words[0]
    else words[0] + [' '] + JoinWords(words[1..])
  }

  function Utf8(c: char): (bs: seq<byte>)
    ensures 1 <= |bs| <= 4
  {
    var n := c as int;
    if n < 0x80 then [n as byte]
    else if n < 0x800 then [(0xC0 + n / 0x40) as byte, Continuation(n)]
    else if n < 0x1_0000 then [(0xE0 + n / 0x1000) as byte, Continuation(n / 0x40), Continuation(n)]
    else [(0xF0 + n / 0x4_0000) as byte, Continuation(n / 0x1000), Continuation(n / 0x40), Continuation(n)]
  }

  function Continuation(n: nat): byte {
    (0x80 + n % 0x40) as byte
  }

  function Encode(s: string): seq<byte> {
    if s == "" then [] else Utf8(s[0]) + Encode(s[1..])
  }

  function Joined(s: string): string {
    JoinWords(Fields(TrimSpace(s)))
  }

  function SummarizeForTitle(s: string): seq<byte> {
    if TrimSpace(s) == "" then []
    else
      var joined := Encode(Joined(s));
      if |joined| <= MAX_TITLE then joined else joined[..MAX_TITLE] + Utf8(ELLIPSIS)
  }

  // ----- the words

  ghost predicate AreWords(words: seq<string>) {
    forall w :: w in words ==> w != "" && forall c :: c in w ==> !IsSpace(c)
  }

  lemma {:induction false} FieldsAreWords(s: string)
    ensures AreWords(Fields(s))
    decreases |s|
  {
    if s != "" {
      FieldsAreWords(if IsSpace(s[0]) then s[1..] else s[WordLength(s)..]);
    }
  }

  function Concat(words: seq<string>): string {
    if words == [] then "" else words[0] + Concat(words[1..])
  }

  /** The words hold every character that is no space, in order. */
  lemma {:induction false} FieldsHoldEverything(s: string)
    ensures Concat(Fields(s)) == Filter(NotSpace(), s)
    decreases |s|
  {
    if s != "" {
      var n := if IsSpace(s[0]) then 1 else WordLength(s);
      FieldsHoldEverything(s[n..]);
      FilterAppend(NotSpace(), s[..n], s[n..]);
      assert s == s[..n] + s[n..];
      if IsSpace(s[0]) {
        FilterOne(NotSpace(), s[0]);
        assert s[..1] == [s[0]];
      } else {
        FilterKeepsAll(NotSpace(), s[..n]);
      }
    }
  }

  lemma {:induction false} WordThenSpace(w: string, rest: string)
    requires forall c :: c in w ==> !IsSpace(c)
    requires rest == "" || IsSpace(rest[0])
    ensures WordLength(w + rest) == |w|
  {
    if w != "" {
      assert (w + rest)[1..] == w[1..] + rest;
      WordThenSpace(w[1..], rest);
    }
  }

  lemma FieldsOfWord(w: string, rest: string)
    requires w != "" && forall c :: c in w ==> !IsSpace(c)
    requires rest == "" || IsSpace(rest[0])
    ensures Fields(w + rest) == [w] + Fields(rest)
  {
    WordThenSpace(w, rest);
    assert (w + rest)[..|w|] == w && (w + rest)[|w|..] == rest;
  }

  /** Joining words and splitting again gives the words back. */
  lemma {:induction false} FieldsOfJoin(words: seq<string>)
    requires AreWords(words)
    ensures Fields(JoinWords(words)) == words
  {
    if words != [] {
      var w, more := words[0], words[1..];
      assert w in words && forall v :: v in more ==> v in words;
      FieldsOfJoin(more);
      if more == [] {
        FieldsOfWord(w, "");
        assert w + "" == w;
      } else {
        var rest := [' '] + JoinWords(more);
        FieldsOfWord(w, rest);
        assert rest[1..] == JoinWords(more);
        Assoc(w, [' '], JoinWords(more));
      }
      assert words == [w] + more;
    }
  }

  lemma {:induction false} FieldsOfTrailingSpace(s: string, c: char)
    requires IsSpace(c)
    ensures Fields(s + [c]) == Fields(s)
    decreases |s|
  {
    if s == "" {
      assert (s + [c])[1..] == "";
    } else if IsSpace(s[0]) {
      FieldsOfTrailingSpace(s[1..], c);
      assert (s + [c])[1..] == s[1..] + [c];
    } else {
      var n := WordLength(s);
      var w, rest := s[..n], s[n..];
      FieldsOfTrailingSpace(rest, c);
      FieldsOfWord(w, rest + [c]);
      Assoc(w, rest, [c]);
      assert w + rest == s;
    }
  }

  lemma {:induction false} TrimRightKeepsFields(s: string)
    ensures Fields(TrimRight(s)) == Fields(s)
  {
    if s != "" && IsSpace(s[|s| - 1]) {
      TrimRightKeepsFields(s[..|s| - 1]);
      FieldsOfTrailingSpace(s[..|s| - 1], s[|s| - 1]);
      assert s == s[..|s| - 1] + [s[|s| - 1]];
    }
  }

  lemma {:induction false} TrimLeftKeepsFields(s: string)
    ensures Fields(TrimLeft(s)) == Fields(s)
  {
    if s != "" && IsSpace(s[0]) {
      TrimLeftKeepsFields(s[1..]);
    }
  }

  /** White space apart, the joined text is the message; joining once more changes nothing. */
  lemma JoinedKeepsWords(s: string)
    ensures Fields(Joined(s)) == Fields(s)
    ensures Joined(Joined(s)) == Joined(s)
  {
    TrimLeftKeepsFields(s);
    TrimRightKeepsFields(TrimLeft(s));
    FieldsAreWords(s);
    FieldsOfJoin(Fields(s));
    TrimLeftKeepsFields(Joined(s));
    TrimRightKeepsFields(TrimLeft(Joined(s)));
  }

  /** A message gives no title exactly if it is blank; no title is longer than 83 bytes. */
  lemma BlankIffNoTitle(s: string)
    ensures SummarizeForTitle(s) == [] <==> forall c :: c in s ==> IsSpace(c)
    ensures |SummarizeForTitle(s)| <= MAX_TITLE + 3
  {
    TrimmedEmptyIff(s);
    if TrimSpace(s) != "" {
      JoinedKeepsWords(s);
      FieldsHoldEverything(s);
      FilterMembers(NotSpace(), s);
      assert Joined(s) != "";
    }
  }

  lemma TrimmedEmptyIff(s: string)
    ensures TrimSpace(s) == "" <==> forall c :: c in s ==> IsSpace(c)
  {
    TrimLeftKeepsFields(s);
    TrimRightKeepsFields(TrimLeft(s));
    FieldsHoldEverything(s);
    FieldsHoldEverything(TrimSpace(s));
    FilterMembers(NotSpace(), s);
    FilterMembers(NotSpace(), TrimSpace(s));
    TrimRightEnds(TrimLeft(s));
    var t := TrimSpace(s);
    assert t != "" ==> t[|t| - 1] in Filter(NotSpace(), t);
    if forall c :: c in s ==> IsSpace(c) {
      FilterKeepsNone(NotSpace(), s);
    }
  }

  lemma {:induction false} TrimRightEnds(s: string)
    ensures var t := TrimRight(s); t != "" ==> !IsSpace(t[|t| - 1])
  {
    if s != "" && IsSpace(s[|s| - 1]) {
      TrimRightEnds(s[..|s| - 1]);
    }
  }

  /** One space between two words, and none at either end. */
  lemma {:induction false} SingleSpaces(words: seq<string>)
    requires AreWords(words)
    ensures var j := JoinWords(words);
      && (words != [] ==> j != "" && !IsSpace(j[0]) && !IsSpace(j[|j| - 1]))
      && forall i :: 0 <= i < |j| && IsSpace(j[i]) ==> j[i] == ' ' && 0 < i < |j| - 1 && !IsSpace(j[i + 1])
  {
    if words != [] {
      var w, more := words[0], words[1..];
      assert w in words && forall v :: v in more ==> v in words;
      SingleSpaces(more);
      SpacedWord(w, JoinWords(more));
    }
  }

  lemma SpacedWord(w: string, rest: string)
    requires w != "" && forall c :: c in w ==> !IsSpace(c)
    ensures forall i :: 0 <= i < |w| ==> !IsSpace(w[i])
    ensures forall i :: 0 <= i < |w + [' '] + rest| ==>
      (w + [' '] + rest)[i] == if i < |w| then w[i] else if i == |w| then ' ' else rest[i - |w| - 1]
  {
  }

  /** White space, by code point. */
  lemma SpacesAre(c: char)
    ensures var n := c as int;
      IsSpace(c) <==> (
        || 9 <= n <= 13 || n == 32 || n == 0x85 || n == 0xA0 || n == 0x1680 || 0x2000 <= n <= 0x200A
        || n == 0x2028 || n == 0x2029 || n == 0x202F || n == 0x205F || n == 0x3000)
  {
  }

  /** The title is the message's words joined by single spaces, or their first 80 bytes and an ellipsis. */
  lemma TitleIsTheWords(s: string)
    ensures var words := Encode(JoinWords(Fields(s)));
      SummarizeForTitle(s) == if |words| <= 80 then words else words[..80] + [0xE2, 0x80, 0xA6]
  {
    TrimLeftKeepsFields(s);
    TrimRightKeepsFields(TrimLeft(s));
    EllipsisBytes();
  }

  lemma EllipsisBytes()
    ensures Utf8(ELLIPSIS) == [0xE2, 0x80, 0xA6]
  {
  }

  // ----- the bytes

  /** The code point that a well-formed sequence of bytes stands for. */
  function CodePoint(bs: seq<byte>): int {
    if |bs| == 1 then bs[0] as int
    else if |bs| == 2 then (bs[0] as int - 0xC0) * 0x40 + (bs[1] as int - 0x80)
    else if |bs| == 3 then (bs[0] as int - 0xE0) * 0x1000 + (bs[1] as int - 0x80) * 0x40 + (bs[2] as int - 0x80)
    else if |bs| == 4 then
      (bs[0] as int - 0xF0) * 0x4_0000 + (bs[1] as int - 0x80) * 0x1000 + (bs[2] as int - 0x80) * 0x40 + (bs[3] as int - 0x80)
    else 0
  }

  /** One to four bytes by the size of the code point, which they stand for. */
  lemma Utf8StandsFor(c: char)
    ensures CodePoint(Utf8(c)) == c as int
    ensures |Utf8(c)| == if c as int < 0x80 then 1 else if c as int < 0x800 then 2 else if c as int < 0x1_0000 then 3 else 4
  {
    var n := c as int;
    assert n == n / 0x40 * 0x40 + n % 0x40;
    assert n / 0x40 == n / 0x1000 * 0x40 + n / 0x40 % 0x40;
    assert n / 0x1000 == n / 0x4_0000 * 0x40 + n / 0x1000 % 0x40;
  }

  predicate IsContinuation(b: byte) {
    0x80 <= b < 0xC0
  }

  function LeadWidth(b: byte): nat {
    if b < 0x80 then 1 else if b < 0xE0 then 2 else if b < 0xF0 then 3 else 4
  }

  lemma Utf8Shape(c: char)
    ensures |Utf8(c)| == LeadWidth(Utf8(c)[0])
    ensures forall k :: 0 < k < |Utf8(c)| ==> IsContinuation(Utf8(c)[k])
  {
  }

  lemma {:induction false} EncodeAppend(s: string, t: string)
    ensures Encode(s + t) == Encode(s) + Encode(t)
  {
    if s == "" {
      assert s + t == t;
    } else {
      assert (s + t)[1..] == s[1..] + t;
      EncodeAppend(s[1..], t);
      Assoc(Utf8(s[0]), Encode(s[1..]), Encode(t));
    }
  }

  /** The bytes are some text's encoding. */
  ghost predicate IsText(bytes: seq<byte>) {
    exists t :: Encode(t) == bytes
  }

  /** The first n bytes are whole characters. */
  ghost predicate CutsBetweenCharacters(s: string, n: nat) {
    exists k :: 0 <= k <= |s| && |Encode(s[..k])| == n
  }

  lemma EncodeOne(c: char)
    ensures Encode([c]) == Utf8(c)
  {
    assert [c][1..] == "";
  }

  lemma {:induction false} TextCutsBetween(s: string, n: nat, t: string)
    requires n <= |Encode(s)| && Encode(t) == Encode(s)[..n] + Utf8(ELLIPSIS)
    ensures CutsBetweenCharacters(s, n)
  {
    if n == 0 {
      assert |Encode(s[..0])| == 0;
    } else {
      FirstCharacterIsWhole(s, n, t);
      CutTail(s, n, t);
      TextCutsBetween(s[1..], n - |Utf8(s[0])|, t[1..]);
      var k :| 0 <= k <= |s[1..]| && |Encode(s[1..][..k])| == n - |Utf8(s[0])|;
      assert s[..k + 1][1..] == s[1..][..k];
    }
  }

  /** The ellipsis starts with a lead byte, so it cannot complete a character that was cut. */
  lemma FirstCharacterIsWhole(s: string, n: nat, t: string)
    requires 0 < n <= |Encode(s)| && Encode(t) == Encode(s)[..n] + Utf8(ELLIPSIS)
    ensures s != "" && t != "" && |Utf8(s[0])| == |Utf8(t[0])| <= n
  {
    Utf8Shape(s[0]);
    Utf8Shape(t[0]);
    var bytes := Encode(s)[..n] + Utf8(ELLIPSIS);
    assert bytes[0] == Utf8(s[0])[0] == Utf8(t[0])[0];
    var next := bytes[n];
    assert next == Utf8(ELLIPSIS)[0] && !IsContinuation(next);
    if n < |Utf8(t[0])| {
      assert false;
    }
  }

  lemma CutTail(s: string, n: nat, t: string)
    requires s != "" && t != "" && |Utf8(s[0])| == |Utf8(t[0])| <= n <= |Encode(s)|
    requires Encode(t) == Encode(s)[..n] + Utf8(ELLIPSIS)
    ensures Encode(t[1..]) == Encode(s[1..])[..n - |Utf8(s[0])|] + Utf8(ELLIPSIS)
  {
    SameCut(Utf8(t[0]), Encode(t[1..]), Utf8(s[0]), Encode(s[1..]), n, Utf8(ELLIPSIS));
  }

  lemma SameCut<T>(a: seq<T>, x: seq<T>, b: seq<T>, y: seq<T>, n: nat, e: seq<T>)
    requires |a| == |b| <= n <= |b + y| && a + x == (b + y)[..n] + e
    ensures x == y[..n - |b|] + e
  {
    assert x == (a + x)[|a|..];
    assert (b + y)[..n] == b + y[..n - |b|];
    Assoc(b, y[..n - |b|], e);
  }

  lemma CutBetweenIsText(s: string, n: nat)
    requires n <= |Encode(s)| && CutsBetweenCharacters(s, n)
    ensures IsText(Encode(s)[..n] + Utf8(ELLIPSIS))
  {
    var k :| 0 <= k <= |s| && |Encode(s[..k])| == n;
    assert s == s[..k] + s[k..];
    EncodeAppend(s[..k], s[k..]);
    EncodeAppend(s[..k], [ELLIPSIS]);
    EncodeOne(ELLIPSIS);
    assert Encode(s)[..n] == Encode(s[..k]);
  }

  /** The cut counts bytes: the title is well-formed text exactly if no character straddles byte 80. */
  lemma TitleIsTextIff(s: string)
    ensures IsText(SummarizeForTitle(s)) <==>
      |Encode(Joined(s))| <= MAX_TITLE || CutsBetweenCharacters(Joined(s), MAX_TITLE)
  {
    if TrimSpace(s) == "" {
      assert Encode("") == SummarizeForTitle(s);
      assert Joined(s) == "";
    } else if |Encode(Joined(s))| > MAX_TITLE {
      if CutsBetweenCharacters(Joined(s), MAX_TITLE) {
        CutBetweenIsText(Joined(s), MAX_TITLE);
      }
      if t :| Encode(t) == SummarizeForTitle(s) {
        TextCutsBetween(Joined(s), MAX_TITLE, t);
      }
    }
  }

  /** For instance: after 79 letters, any character of more than one byte is cut in two. */
  lemma CutsInsideACharacter(c: char)
    requires c as int >= 0x80 && !IsSpace(c)
    ensures !IsText(SummarizeForTitle(seq(79, _ => 'a') + [c]))
  {
    var s := seq(79, _ => 'a') + [c];
    FieldsOfWord(s, "");
    assert s + "" == s;
    JoinedKeepsWords(s);
    TrimmedEmptyIff(s);
    assert s[0] in s;
    TrimLeftKeepsFields(s);
    TrimRightKeepsFields(TrimLeft(s));
    assert Joined(s) == s;
    forall k | 0 <= k <= |s| ensures |Encode(s[..k])| != MAX_TITLE {
      LettersThen(s, k);
    }
    LettersThen(s, 80);
    assert s[..80] == s;
    TitleIsTextIff(s);
  }

  lemma {:induction false} LettersThen(s: string, k: nat)
    requires |s| == 80 && (forall i :: 0 <= i < 79 ==> s[i] == 'a') && s[79] as int >= 0x80 && k <= 80
    ensures if k < 80 then |Encode(s[..k])| == k else |Encode(s[..k])| > 80
  {
    if k > 0 {
      LettersThen(s, k - 1);
      assert s[..k] == s[..k - 1] + [s[k - 1]];
      EncodeAppend(s[..k - 1], [s[k - 1]]);
      EncodeOne(s[k - 1]);
    }
  }
}
