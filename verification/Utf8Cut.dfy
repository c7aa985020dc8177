/** Cutting UTF-8 text at a byte position: `trimUTF8PartialSuffix` (`desktop/app.go`) drops
    a partial character from the end of a file read in chunks, `ReportCrash`
    (`desktop/crash_app.go`) shortens an over-long report. The grammar is that of
    section 4 of RFC 3629; `RuneStart`, `Valid` and `FullRune` are those of Go's
    `unicode/utf8`. */
module Utf8Cut {

  newtype Byte = x: int | 0 <= x < 256

  const UTF_MAX := 4
  const MAX_CRASH_DETAIL_BYTES := 16384

  predicate Tail(b: Byte) { 0x80 <= b <= 0xBF }

  /** The length a character has by its first byte; 0 where no character starts so. */
  function Size(b: Byte): nat {
    if b <= 0x7F then 1
    else if 0xC2 <= b <= 0xDF then 2
    else if 0xE0 <= b <= 0xEF then 3
    else if 0xF0 <= b <= 0xF4 then 4
    else 0
  }

  /** The second byte is a tail byte, further restricted after E0, ED, F0 and F4. */
  predicate SecondOk(first: Byte, b: Byte) {
    && Tail(b)
    && (first == 0xE0 ==> 0xA0 <= b) && (first == 0xED ==> b <= 0x9F)
    && (first == 0xF0 ==> 0x90 <= b) && (first == 0xF4 ==> b <= 0x8F)
  }

  /** `s` starts like one character, as far as `s` and that character both go. */
  predicate StartsLikeChar(s: seq<Byte>) {
    && s != [] && Size(s[0]) > 0
    && (|s| > 1 && Size(s[0]) > 1 ==> SecondOk(s[0], s[1]))
    && (|s| > 2 && Size(s[0]) > 2 ==> Tail(s[2]))
    && (|s| > 3 && Size(s[0]) > 3 ==> Tail(s[3]))
  }

  predicate IsChar(s: seq<Byte>) { StartsLikeChar(s) && |s| == Size(s[0]) }

  /** A text: a sequence of whole characters. */
  predicate Valid(s: seq<Byte>) {
    s == [] ||
    (StartsLikeChar(s) && Size(s[0]) <= |s| && Valid(s[Size(s[0])..]))
  }

  predicate RuneStart(b: Byte) { !Tail(b) }

  /** Go counts an erroneous start as a full (one-byte error) rune: only the proper
      beginning of some character is not full. */
  predicate FullRune(p: seq<Byte>) {
    p != [] &&
    (|p| >= (if Size(p[0]) > 0 then Size(p[0]) else 1) ||
     (|p| > 1 && !SecondOk(p[0], p[1])) ||
     (|p| > 2 && !Tail(p[2])))
  }

  method TrimUTF8PartialSuffix(data: seq<Byte>) returns (r: seq<Byte>)
    ensures r == Trimmed(data)
  {
    if Valid(data) {
      return data;
    }
    var i := |data| - 1;
    while i >= 0 && |data| - i <= UTF_MAX
      invariant -1 <= i < |data|
      invariant TrimFrom(data, i) == Trimmed(data)
    {
      if !RuneStart(data[i]) {
        i := i - 1;
        continue;
      }
      if !Valid(data[..i]) || FullRune(data[i..]) {
        return data;
      }
      return data[..i];
    }
    return data;
  }

  function TrimFrom(data: seq<Byte>, i: int): seq<Byte>
    requires -1 <= i < |data|
    decreases i + 1
  {
    if i < 0 || |data| - i > UTF_MAX then data
    else if !RuneStart(data[i]) then TrimFrom(data, i - 1)
    else if !Valid(data[..i]) || FullRune(data[i..]) then data
    else data[..i]
  }

  function Trimmed(data: seq<Byte>): seq<Byte> {
    if Valid(data) then data else TrimFrom(data, |data| - 1)
  }

  // ---- the grammar ----

  lemma {:induction false} ValidConcat(s: seq<Byte>, t: seq<Byte>)
    requires Valid(s) && Valid(t)
    ensures Valid(s + t)
  {
    if s == [] {
      assert s + t == t;
    } else {
      var n := Size(s[0]);
      ValidConcat(s[n..], t);
      assert (s + t)[n..] == s[n..] + t;
    }
  }

  /** Splitting a text after a text leaves a text. */
  lemma {:induction false} ValidRest(s: seq<Byte>, t: seq<Byte>)
    requires Valid(s) && Valid(s + t)
    ensures Valid(t)
  {
    if s == [] {
      assert s + t == t;
    } else {
      var n := Size(s[0]);
      assert (s + t)[n..] == s[n..] + t;
      ValidRest(s[n..], t);
    }
  }

  /** `i` is a character boundary of the text `s`. */
  predicate Boundary(s: seq<Byte>, i: int) { 0 <= i <= |s| && Valid(s[..i]) }

  /** In a text every position is a boundary or lies inside a character, at most three
      bytes after the boundary before it and with only tail bytes in between. */
  lemma {:induction false} BoundaryBefore(s: seq<Byte>, i: nat) returns (b: nat)
    requires Valid(s) && i < |s|
    ensures b <= i && Boundary(s, b) && Valid(s[b..]) && i < b + Size(s[b])
    ensures forall k :: b < k <= i ==> Tail(s[k])
  {
    var n := Size(s[0]);
    if i < n {
      b := 0;
    } else {
      b := BoundaryBefore(s[n..], i - n);
      BoundaryShift(s, n, b);
      forall k | n + b < k <= i ensures Tail(s[k]) {
        assert s[n..][k - n] == s[k];
      }
      b := n + b;
    }
  }

  lemma BoundaryShift(s: seq<Byte>, n: nat, b: nat)
    requires s != [] && StartsLikeChar(s) && n == Size(s[0]) && n + b < |s|
    requires Boundary(s[n..], b)
    ensures Boundary(s, n + b) && s[n + b..] == s[n..][b..]
  {
    assert Valid(s[..n]) by { assert s[..n][n..] == []; }
    ValidConcat(s[..n], s[n..][..b]);
    assert s[..n + b] == s[..n] + s[n..][..b];
  }

  /** The boundaries of a text are exactly its end and the positions of non-tail bytes. */
  lemma BoundaryIffRuneStart(s: seq<Byte>, i: nat)
    requires Valid(s) && i < |s|
    ensures Boundary(s, i) <==> RuneStart(s[i])
  {
    hide Valid, StartsLikeChar;
    var b := BoundaryBefore(s, i);
    CharStartsNoTail(s[b..]);
    assert s[b..][0] == s[b];
    if Boundary(s, i) {
      assert s == s[..i] + s[i..];
      ValidRest(s[..i], s[i..]);
      CharStartsNoTail(s[i..]);
    }
  }

  lemma CharStartsNoTail(s: seq<Byte>)
    requires Valid(s) && s != []
    ensures RuneStart(s[0])
  {
  }

  // ---- texts are what section 3 of RFC 3629 encodes ----

  predicate Scalar(c: int) { 0 <= c <= 0x10FFFF && !(0xD800 <= c <= 0xDFFF) }

  /** The octets of a character number, six bits of it in every octet but the first. */
  function Encode(c: int): seq<Byte>
    requires Scalar(c)
  {
    if c < 0x80 then [c as Byte]
    else if c < 0x800 then [(0xC0 + c / 0x40) as Byte, Low(c)]
    else if c < 0x10000 then [(0xE0 + c / 0x1000) as Byte, Low(c / 0x40), Low(c)]
    else [(0xF0 + c / 0x40000) as Byte, Low(c / 0x1000), Low(c / 0x40), Low(c)]
  }

  function Low(c: int): Byte { (0x80 + c % 0x40) as Byte }

  function EncodeAll(cs: seq<int>): seq<Byte>
    requires forall i :: 0 <= i < |cs| ==> Scalar(cs[i])
  {
    if cs == [] then [] else Encode(cs[0]) + EncodeAll(cs[1..])
  }

  lemma EncodedIsChar(c: int)
    requires Scalar(c)
    ensures IsChar(Encode(c))
  {
  }

  function Bits(b: Byte, base: int): int { b as int - base }

  lemma LowAgain(q: int, b: Byte)
    requires Tail(b)
    ensures var c := q * 0x40 + Bits(b, 0x80); Low(c) == b && c / 0x40 == q
  {
  }

  /** Every character of the grammar encodes a number. */
  lemma CharIsEncoded(s: seq<Byte>) returns (c: int)
    requires IsChar(s)
    ensures Scalar(c) && Encode(c) == s
  {
    if |s| == 1 {
      c := s[0] as int;
    } else if |s| == 2 {
      LowAgain(Bits(s[0], 0xC0), s[1]);
      c := Bits(s[0], 0xC0) * 0x40 + Bits(s[1], 0x80);
    } else if |s| == 3 {
      var high := Bits(s[0], 0xE0) * 0x40 + Bits(s[1], 0x80);
      LowAgain(Bits(s[0], 0xE0), s[1]);
      LowAgain(high, s[2]);
      c := high * 0x40 + Bits(s[2], 0x80);
      assert c / 0x1000 == Bits(s[0], 0xE0);
    } else {
      c := FourEncoded(s);
    }
  }

  lemma FourEncoded(s: seq<Byte>) returns (c: int)
    requires IsChar(s) && |s| == 4
    ensures Scalar(c) && Encode(c) == s
  {
    var top := Bits(s[0], 0xF0) * 0x40 + Bits(s[1], 0x80);
    var high := top * 0x40 + Bits(s[2], 0x80);
    LowAgain(Bits(s[0], 0xF0), s[1]);
    LowAgain(top, s[2]);
    LowAgain(high, s[3]);
    c := high * 0x40 + Bits(s[3], 0x80);
    assert c / 0x1000 == top && c / 0x40000 == Bits(s[0], 0xF0);
  }

  lemma FirstChar(s: seq<Byte>) returns (n: nat)
    requires Valid(s) && s != []
    ensures 1 <= n <= |s| && IsChar(s[..n]) && Valid(s[n..])
  {
    n := Size(s[0]);
  }

  lemma EncodeAllCons(c: int, cs: seq<int>)
    requires Scalar(c) && forall i :: 0 <= i < |cs| ==> Scalar(cs[i])
    ensures EncodeAll([c] + cs) == Encode(c) + EncodeAll(cs)
  {
    hide Encode, Scalar;
    assert ([c] + cs)[1..] == cs;
  }

  /** A text is the encoding of a sequence of character numbers. */
  lemma {:induction false} TextIsEncoded(s: seq<Byte>) returns (cs: seq<int>)
    requires Valid(s)
    ensures (forall i :: 0 <= i < |cs| ==> Scalar(cs[i])) && EncodeAll(cs) == s
  {
    hide Encode, Scalar, Valid, IsChar;
    if s == [] {
      cs := [];
    } else {
      var n := FirstChar(s);
      var c := CharIsEncoded(s[..n]);
      var rest := TextIsEncoded(s[n..]);
      EncodeAllCons(c, rest);
      cs := [c] + rest;
      assert s == s[..n] + s[n..];
    }
  }

  /** And every such encoding is a text. */
  lemma {:induction false} EncodedIsText(cs: seq<int>)
    requires forall i :: 0 <= i < |cs| ==> Scalar(cs[i])
    ensures Valid(EncodeAll(cs))
  {
    hide Encode, IsChar, StartsLikeChar;
    if cs != [] {
      EncodedIsText(cs[1..]);
      EncodedIsChar(cs[0]);
      ValidChar(Encode(cs[0]));
      ValidConcat(Encode(cs[0]), EncodeAll(cs[1..]));
    }
  }

  // ---- what trimming does ----

  /** `data` is a byte prefix of some text. */
  ghost predicate Extendable(data: seq<Byte>) { exists t :: Valid(data + t) }

  /** Some bytes that complete a character begun by `p`. */
  function Completion(p: seq<Byte>): seq<Byte>
    requires StartsLikeChar(p) && |p| <= Size(p[0])
    decreases Size(p[0]) - |p|
  {
    if |p| == Size(p[0]) then []
    else
      var b: Byte := if |p| == 1 && p[0] == 0xE0 then 0xA0 else if |p| == 1 && p[0] == 0xF0 then 0x90 else 0x80;
      [b] + Completion(p + [b])
  }

  lemma {:induction false} CompletionWorks(p: seq<Byte>)
    requires StartsLikeChar(p) && |p| <= Size(p[0])
    ensures IsChar(p + Completion(p))
    decreases Size(p[0]) - |p|
  {
    if |p| == Size(p[0]) {
      assert p + [] == p;
    } else {
      var b := Completion(p)[0];
      CompletionWorks(p + [b]);
      assert p + Completion(p) == p + [b] + Completion(p + [b]);
    }
  }

  lemma ValidChar(c: seq<Byte>)
    requires IsChar(c)
    ensures Valid(c)
  {
    assert c[Size(c[0])..] == [];
  }

  lemma NotFullIsUnfinished(p: seq<Byte>)
    requires p != [] && !FullRune(p)
    ensures StartsLikeChar(p) && |p| < Size(p[0])
  {
  }

  /** A text followed by the unfinished beginning of a character can be completed. */
  lemma UnfinishedExtends(data: seq<Byte>, i: nat)
    requires i < |data| && Valid(data[..i]) && RuneStart(data[i]) && !FullRune(data[i..])
    ensures Extendable(data)
  {
    hide Valid, FullRune, Completion, IsChar;
    var p := data[i..];
    NotFullIsUnfinished(p);
    var c := Completion(p);
    CompletionWorks(p);
    ValidChar(p + c);
    ValidConcat(data[..i], p + c);
    assert data + c == data[..i] + (p + c);
  }

  lemma {:induction false} TrimSkipsTails(data: seq<Byte>, b: nat, i: nat)
    requires b <= i < |data| && |data| - b <= UTF_MAX
    requires forall k :: b < k < |data| ==> Tail(data[k])
    ensures TrimFrom(data, i) == TrimFrom(data, b)
  {
    if b < i {
      TrimSkipsTails(data, b, i - 1);
    }
  }

  lemma {:induction false} TrimFromCuts(data: seq<Byte>, i: int)
    requires -1 <= i < |data|
    ensures TrimFrom(data, i) == data || Extendable(data)
    decreases i + 1
  {
    if i >= 0 && |data| - i <= UTF_MAX {
      if !RuneStart(data[i]) {
        TrimFromCuts(data, i - 1);
      } else if Valid(data[..i]) && !FullRune(data[i..]) {
        UnfinishedExtends(data, i);
      }
    }
  }

  /** The unfinished character at the end of a text cut after `data`. */
  lemma UnfinishedTail(data: seq<Byte>, t: seq<Byte>) returns (b: nat)
    requires Valid(data + t) && !Valid(data)
    ensures b < |data| <= b + 3 && Valid(data[..b]) && RuneStart(data[b]) && !FullRune(data[b..])
    ensures forall k :: b < k < |data| ==> Tail(data[k])
    ensures forall j :: Boundary(data, j) ==> j <= b
  {
    var s := data + t;
    assert t != [] by { assert data + [] == data; }
    b := BoundaryBefore(s, |data|);
    assert s[..|data|] == data && s[..b] == data[..b];
    UnfinishedRest(data, t, b);
    hide Valid, StartsLikeChar, FullRune;
    forall j | Boundary(data, j) ensures j <= b {
      assert s[..j] == data[..j];
      BoundaryIffRuneStart(s, j);
    }
  }

  /** A character of a text that the cut leaves unfinished. */
  lemma UnfinishedRest(data: seq<Byte>, t: seq<Byte>, b: nat)
    requires t != [] && b <= |data| < b + Size((data + t)[b]) && Valid((data + t)[b..]) && !Valid(data)
    requires Valid(data[..b])
    ensures b < |data| <= b + 3 && RuneStart(data[b]) && !FullRune(data[b..])
  {
    assert data[..|data|] == data;
    var c := (data + t)[b..];
    assert StartsLikeChar(c) && Size(c[0]) <= |c|;
    hide Valid;
    assert forall k :: 0 <= k < |data| - b ==> data[b..][k] == c[k];
  }

  lemma TrimStops(data: seq<Byte>, b: nat)
    requires b < |data| <= b + UTF_MAX && RuneStart(data[b]) && Valid(data[..b]) && !FullRune(data[b..])
    ensures TrimFrom(data, b) == data[..b]
  {
    hide Valid, FullRune;
  }

  lemma NothingIsText()
    ensures Valid([])
  {
  }

  /** For every input: if the bytes begin some text, trimming yields their longest prefix
      that is a text and drops at most three bytes; if not, it leaves them alone. */
  lemma TrimmedIsLongestText(data: seq<Byte>)
    ensures Extendable(data) ==>
              && Trimmed(data) <= data && Valid(Trimmed(data)) && |data| - |Trimmed(data)| <= 3
              && forall j :: Boundary(data, j) ==> j <= |Trimmed(data)|
    ensures !Extendable(data) ==> Trimmed(data) == data
    ensures Valid(Trimmed(data)) <==> Extendable(data)
  {
    hide Valid, TrimFrom, FullRune, StartsLikeChar;
    if Valid(data) {
      assert data + [] == data && data[..|data|] == data;
    } else {
      assert data != [] by { NothingIsText(); }
      TrimFromCuts(data, |data| - 1);
      if t :| Valid(data + t) {
        var b := UnfinishedTail(data, t);
        TrimSkipsTails(data, b, |data| - 1);
        TrimStops(data, b);
      }
    }
  }

  // ---- the crash report ----

  function CutAt(detail: seq<Byte>, n: nat): (m: nat)
    requires n < |detail|
    ensures m <= n
  {
    if n > 0 && !RuneStart(detail[n]) then CutAt(detail, n - 1) else n
  }

  method CutDetail(detail: seq<Byte>) returns (r: seq<Byte>)
    ensures |detail| <= MAX_CRASH_DETAIL_BYTES ==> r == detail
    ensures |detail| > MAX_CRASH_DETAIL_BYTES ==>
              r == detail[..CutAt(detail, MAX_CRASH_DETAIL_BYTES)]
  {
    r := detail;
    if |detail| > MAX_CRASH_DETAIL_BYTES {
      var n := MAX_CRASH_DETAIL_BYTES;
      while n > 0 && !RuneStart(detail[n])
        invariant 0 <= n <= MAX_CRASH_DETAIL_BYTES
        invariant CutAt(detail, n) == CutAt(detail, MAX_CRASH_DETAIL_BYTES)
      {
        n := n - 1;
      }
      r := detail[..n];
    }
  }

  lemma {:induction false} CutSkipsTails(detail: seq<Byte>, b: nat, n: nat)
    requires b <= n < |detail| && RuneStart(detail[b])
    requires forall k :: b < k <= n ==> Tail(detail[k])
    ensures CutAt(detail, n) == b
  {
    if b < n {
      CutSkipsTails(detail, b, n - 1);
    }
  }

  /** A report whose bytes up to the limit begin some text, as those of any text do, is cut
      at the last character boundary within the limit, at most three bytes before it. */
  lemma CutIsLongestText(detail: seq<Byte>, limit: nat)
    requires limit < |detail| && Extendable(detail[..limit + 1])
    ensures var n := CutAt(detail, limit);
            && limit - 3 <= n <= limit && Valid(detail[..n])
            && forall j :: 0 <= j <= limit && Boundary(detail, j) ==> j <= n
  {
    var head := detail[..limit + 1];
    var t :| Valid(head + t);
    var s := head + t;
    var b := BoundaryBefore(s, limit);
    assert forall k :: 0 <= k <= limit ==> s[k] == detail[k];
    CutSkipsTails(detail, b, limit);
    assert s[..b] == detail[..b];
    forall j | 0 <= j <= limit && Boundary(detail, j) ensures j <= b {
      assert s[..j] == detail[..j];
      BoundaryIffRuneStart(s, j);
    }
  }

  lemma TextPrefixExtends(detail: seq<Byte>, n: nat)
    requires Valid(detail) && n <= |detail|
    ensures Extendable(detail[..n])
  {
    assert detail[..n] + detail[n..] == detail;
  }

  /** Where the loop stops: at the start, or at a byte that is no tail, with only tail bytes
      up to the limit behind it. */
  lemma {:induction false} CutStops(detail: seq<Byte>, n: nat)
    requires n < |detail|
    ensures var m := CutAt(detail, n);
            && (m == 0 || RuneStart(detail[m]))
            && forall k :: m < k <= n ==> Tail(detail[k])
  {
    if n > 0 && !RuneStart(detail[n]) {
      CutStops(detail, n - 1);
    }
  }

  /** From `b` on there are only tail bytes up to the limit, and a text ends at `b`. */
  predicate TextEnds(detail: seq<Byte>, limit: nat, b: nat)
    requires limit < |detail|
  {
    b <= limit && Boundary(detail, b) && forall k :: b < k <= limit ==> Tail(detail[k])
  }

  lemma CutBelow(detail: seq<Byte>, limit: nat, b: nat)
    requires limit < |detail| && TextEnds(detail, limit, b)
    ensures Valid(detail[..CutAt(detail, limit)])
  {
    var m := CutAt(detail, limit);
    CutStops(detail, limit);
    if m < b {
      assert detail[..b][..m] == detail[..m];
      if m > 0 {
        BoundaryIffRuneStart(detail[..b], m);
      }
    }
  }

  /** For every over-long report: what is sent is a text if and only if the report is one up
      to some position from which only tail bytes follow until the limit. */
  lemma CutIsTextIff(detail: seq<Byte>, limit: nat)
    requires limit < |detail|
    ensures Valid(detail[..CutAt(detail, limit)]) <==> exists b :: TextEnds(detail, limit, b)
  {
    hide Valid, CutAt;
    CutStops(detail, limit);
    if b :| TextEnds(detail, limit, b) {
      CutBelow(detail, limit, b);
    }
    if Valid(detail[..CutAt(detail, limit)]) {
      assert TextEnds(detail, limit, CutAt(detail, limit));
    }
  }

  /** A report that is a text is cut to a text, as the caller is promised. */
  lemma TextIsCutToText(detail: seq<Byte>, limit: nat)
    requires Valid(detail) && limit < |detail|
    ensures Valid(detail[..CutAt(detail, limit)])
  {
    hide Valid, CutAt;
    TextPrefixExtends(detail, limit + 1);
    CutIsLongestText(detail, limit);
  }

  /** The cut does not repair a report that is no text: one that begins with a byte of no
      character is invalid after every cut that leaves anything of it. */
  lemma CutKeepsForeignBytes(detail: seq<Byte>, limit: nat)
    requires 0 < limit < |detail| && detail[0] == 0xFF && RuneStart(detail[limit])
    ensures !Valid(detail[..CutAt(detail, limit)])
  {
    assert detail[..limit][0] == 0xFF;
  }
}
