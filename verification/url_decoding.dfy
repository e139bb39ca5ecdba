/** Percent-decoding and the parsing of query strings. */
module UrlDecoding {
  import opened Common

  const PERCENT: Byte := 37
  const PLUS: Byte := 43
  const SPACE: Byte := 32

  // A hexadecimal digit, of either case.
  predicate IsHex(b: Byte) {
    48 <= b <= 57 || 65 <= b <= 70 || 97 <= b <= 102
  }

  // The value of a hexadecimal digit: letters follow the decimal digits, whatever their case.
  function Digit(b: Byte): (d: int)
    requires IsHex(b)
    ensures 0 <= d < 16
  {
    if b < 65 then b - 48 else (if b >= 97 then b - 32 else b) - 65 + 10
  }

  predicate Escape(s: seq<Byte>) {
    |s| >= 3 && s[0] == PERCENT && IsHex(s[1]) && IsHex(s[2])
  }

  // What a text decodes to. A percent sign that no two hex digits follow stands for itself.
  function Decode(s: seq<Byte>): seq<Byte> {
    if s == [] then []
    else if Escape(s) then [Digit(s[1]) * 16 + Digit(s[2])] + Decode(s[3..])
    else [if s[0] == PLUS then SPACE else s[0]] + Decode(s[1..])
  }

  // ---------------------------------------------------------------- every encoder

  // How one byte is written: as itself, as a plus sign, or as two hex digits of either case.
  datatype Choice = Literal | AsPlus | Hex(upper1: bool, upper2: bool)

  predicate Allowed(b: Byte, c: Choice) {
    match c
    case Literal => b != PERCENT && b != PLUS && b != 0
    case AsPlus => b == SPACE
    case Hex(_, _) => true
  }

  function HexDigit(d: int, upper: bool): Byte
    requires 0 <= d < 16
  {
    if d < 10 then 48 + d else if upper then 65 + d - 10 else 97 + d - 10
  }

  function EncodeByte(b: Byte, c: Choice): seq<Byte> {
    match c
    case Literal => [b]
    case AsPlus => [PLUS]
    case Hex(u1, u2) => [PERCENT, HexDigit(b / 16, u1), HexDigit(b % 16, u2)]
  }

  function Encode(data: seq<Byte>, how: seq<Choice>): seq<Byte>
    requires |data| == |how|
  {
    if data == [] then [] else EncodeByte(data[0], how[0]) + Encode(data[1..], how[1..])
  }

  lemma {:induction false} HexDigitBack(d: int, upper: bool)
    requires 0 <= d < 16
    ensures IsHex(HexDigit(d, upper)) && Digit(HexDigit(d, upper)) == d
  {
  }

  lemma {:induction false} DecodeEncodedByte(b: Byte, c: Choice, rest: seq<Byte>)
    requires Allowed(b, c)
    ensures Decode(EncodeByte(b, c) + rest) == [b] + Decode(rest)
  {
    var s := EncodeByte(b, c) + rest;
    match c
    case Hex(u1, u2) =>
      HexDigitBack(b / 16, u1);
      HexDigitBack(b % 16, u2);
      assert Escape(s) && s[3..] == rest && Digit(s[1]) * 16 + Digit(s[2]) == b;
    case _ =>
      assert !Escape(s) && s[1..] == rest;
  }

  // Decoding undoes every encoder, byte for byte.
  lemma {:induction false} DecodeInvertsEncode(data: seq<Byte>, how: seq<Choice>)
    requires |data| == |how| && forall i :: 0 <= i < |data| ==> Allowed(data[i], how[i])
    ensures Decode(Encode(data, how)) == data
  {
    if data != [] {
      DecodeEncodedByte(data[0], how[0], Encode(data[1..], how[1..]));
      DecodeInvertsEncode(data[1..], how[1..]);
    }
  }

  // The encoded text has no NUL, so it can be passed as a C string.
  lemma {:induction false} EncodedHasNoNul(data: seq<Byte>, how: seq<Choice>)
    requires |data| == |how| && forall i :: 0 <= i < |data| ==> Allowed(data[i], how[i])
    ensures 0 !in Encode(data, how)
  {
    if data != [] {
      assert Allowed(data[0], how[0]);
      EncodedHasNoNul(data[1..], how[1..]);
    }
  }

  const LOWER := "0123456789abcdef"
  const UPPER := "0123456789ABCDEF"

  // b is the hexadecimal digit of value d, written in either case.
  predicate Writes(b: Byte, d: nat) {
    d < 16 && (b == LOWER[d] as int || b == UPPER[d] as int)
  }

  lemma {:induction false} HexIsWritten(b: Byte)
    ensures IsHex(b) ==> Writes(b, Digit(b))
    ensures forall d: nat :: Writes(b, d) ==> IsHex(b) && Digit(b) == d
  {
  }

  // A percent sign with two hex digits after it is the byte they write; a plus sign is a space;
  // anything else, a percent sign without them included, is itself.
  lemma {:induction false} DecodesByUnits(s: seq<Byte>)
    requires s != []
    ensures forall x: nat, y: nat :: |s| >= 3 && s[0] == '%' as int && Writes(s[1], x) && Writes(s[2], y) ==>
      Decode(s) == [16 * x + y] + Decode(s[3..])
    ensures s[0] == '%' as int && (forall x: nat, y: nat :: !(|s| >= 3 && Writes(s[1], x) && Writes(s[2], y))) ==>
      Decode(s) == ['%' as int] + Decode(s[1..])
    ensures s[0] == '+' as int ==> Decode(s) == [' ' as int] + Decode(s[1..])
    ensures s[0] != '%' as int && s[0] != '+' as int ==> Decode(s) == [s[0]] + Decode(s[1..])
  {
    if |s| >= 3 {
      HexIsWritten(s[1]);
      HexIsWritten(s[2]);
      if Escape(s) { assert Writes(s[1], Digit(s[1])) && Writes(s[2], Digit(s[2])); }
    }
  }

  lemma {:induction false} DecodeShrinks(s: seq<Byte>)
    ensures |Decode(s)| <= |s|
  {
    if s != [] {
      if Escape(s) { DecodeShrinks(s[3..]); } else { DecodeShrinks(s[1..]); }
    }
  }

  lemma {:induction false} DecodeAt(s: seq<Byte>, i: nat)
    requires i < |s|
    ensures Decode(s[i..]) ==
      if s[i] == PERCENT && i + 2 < |s| && IsHex(s[i + 1]) && IsHex(s[i + 2])
      then [Digit(s[i + 1]) * 16 + Digit(s[i + 2])] + Decode(s[i + 3..])
      else [if s[i] == PLUS then SPACE else s[i]] + Decode(s[i + 1..])
  {
    var t := s[i..];
    assert t[1..] == s[i + 1..];
    if Escape(t) { assert t[3..] == s[i + 3..]; }
  }

  // From position i on, src holds what is left of the text s and its NUL.
  ghost predicate Holds(src: array<Byte>, s: seq<Byte>, i: nat)
    reads src
  {
    |s| < src.Length && forall k :: i <= k <= |s| ==> src[k] == if k < |s| then s[k] else 0
  }

  // Decode one byte of what is left of the text s.
  method DecodeByte(src: array<Byte>, i: nat, ghost s: seq<Byte>) returns (b: Byte, next: nat)
    requires i < |s| && Holds(src, s, i) && 0 !in s
    ensures i < next <= |s| && Decode(s[i..]) == [b] + Decode(s[next..])
  {
    DecodeAt(s, i);
    assert src[i] == s[i] && src[i + 1] == if i + 1 < |s| then s[i + 1] else 0;
    if src[i] == PERCENT && IsHex(src[i + 1]) && IsHex(src[i + 2]) {
      b := Digit(src[i + 1]) * 16 + Digit(src[i + 2]);
      next := i + 3;
    } else {
      b := if src[i] == PLUS then SPACE else src[i];
      next := i + 1;
    }
  }

  // Decode the C string in src into dst, which may be src itself: what is written never
  // overtakes what is still to be read.
  method DecodeUrlComponent(src: array<Byte>, dst: array<Byte>, ghost n: nat) returns (len: nat)
    requires n < src.Length && src[n] == 0 && 0 !in src[..n]
    requires |Decode(src[..n])| < dst.Length
    modifies dst
    ensures len <= n && len < dst.Length && dst[..len] == Decode(old(src[..n])) && dst[len] == 0
    ensures src != dst ==> src[..] == old(src[..])
  {
    ghost var s := src[..n];
    var i, j := 0, 0;
    assert s[0..] == s && dst[..0] + Decode(s) == Decode(s);
    while src[i] != 0
      invariant j <= i <= n && j + |Decode(s[i..])| < dst.Length
      invariant Holds(src, s, i)
      invariant dst[..j] + Decode(s[i..]) == Decode(s)
      decreases n - i
    {
      var b, next := DecodeByte(src, i, s);
      ghost var done, rest := dst[..j], Decode(s[next..]);
      dst[j] := b;
      assert dst[..j + 1] == done + [b];
      Regroup(done, [b], rest);
      i, j := next, j + 1;
    }
    assert s[i..] == [] && Decode([]) == [];
    dst[j] := 0;
    len := j;
  }

  // ---------------------------------------------------------------- query strings

  // A piece of a query string: a key and, after the first '=', a value.
  function KeyOf(s: string): (k: string)
    ensures '=' !in k && |k| <= |s|
  {
    if s == [] || s[0] == '=' then "" else [s[0]] + KeyOf(s[1..])
  }

  function ValueOf(s: string): string {
    if s == [] then "" else if s[0] == '=' then s[1..] else ValueOf(s[1..])
  }

  // The pairs reported for a piece: none for one with neither key nor value.
  function Report(key: string, value: string): seq<(string, string)> {
    if key != "" || value != "" then [(key, value)] else []
  }

  // The pieces between ampersands.
  function Pieces(s: string): (r: seq<string>)
    ensures |r| > 0
  {
    if s == [] then [""]
    else
      var r := Pieces(s[1..]);
      if s[0] == '&' then [""] + r else [[s[0]] + r[0]] + r[1..]
  }

  function Reports(pieces: seq<string>): seq<(string, string)> {
    if pieces == [] then []
    else Report(KeyOf(pieces[0]), ValueOf(pieces[0])) + Reports(pieces[1..])
  }

  // What is still to be reported when key and value hold what has been read of the current
  // piece, `inValue` says whether its '=' has been seen, and s is left.
  function Remaining(key: string, value: string, inValue: bool, s: string): seq<(string, string)> {
    var r := Pieces(s);
    (if inValue then Report(key, value + r[0]) else Report(key + KeyOf(r[0]), ValueOf(r[0]))) + Reports(r[1..])
  }

  // What has been reported and what is still to be.
  function All(calls: seq<(string, string)>, key: string, value: string, inValue: bool, s: string): seq<(string, string)> {
    calls + Remaining(key, value, inValue, s)
  }

  lemma {:induction false} AllStep(calls: seq<(string, string)>, key: string, value: string, inValue: bool, c: char, t: string)
    requires !inValue ==> value == ""
    ensures All(calls, key, value, inValue, [c] + t) ==
      if c == '&' then All(calls + Report(key, value), "", "", false, t)
      else if inValue then All(calls, key, value + [c], true, t)
      else if c == '=' then All(calls, key, "", true, t)
      else All(calls, key + [c], "", false, t)
  {
    RemainingStep(key, value, inValue, [c] + t);
    assert ([c] + t)[1..] == t;
    Regroup(calls, Report(key, value), Remaining("", "", false, t));
  }

  // One character of the query string; t is what follows it.
  method TakeChar(calls: seq<(string, string)>, key: string, value: string, state: int, c: char, ghost t: string)
    returns (calls': seq<(string, string)>, key': string, value': string, state': int)
    requires 0 <= state <= 1 && (state == 0 ==> value == "")
    ensures 0 <= state' <= 1 && (state' == 0 ==> value' == "")
    ensures All(calls, key, value, state == 1, [c] + t) == All(calls', key', value', state' == 1, t)
  {
    AllStep(calls, key, value, state == 1, c, t);
    calls', key', value', state' := calls, key, value, state;
    if state == 0 {
      if c == '=' {
        state' := 1;
      } else if c == '&' {
        calls' := calls + Report(key, value);
        key', value' := "", "";
      } else {
        key' := key + [c];
      }
    } else {
      if c == '&' {
        calls' := calls + Report(key, value);
        key', value' := "", "";
        state' := 0;
      } else {
        value' := value + [c];
      }
    }
  }

  // The callback is called with the pairs of the pieces, in order.
  method ParseQueryString(qs: string) returns (calls: seq<(string, string)>)
    ensures calls == Reports(Pieces(qs))
  {
    calls := [];
    var key, value := "", "";
    var state := 0;
    var p := 0;
    AllToDo(qs);
    while p < |qs|
      invariant p <= |qs| && 0 <= state <= 1 && (state == 0 ==> value == "")
      invariant All(calls, key, value, state == 1, qs[p..]) == Reports(Pieces(qs))
    {
      TakeFirst(qs, p);
      calls, key, value, state := TakeChar(calls, key, value, state, qs[p], qs[p + 1..]);
      p := p + 1;
    }
    assert calls + Report(key, value) == Reports(Pieces(qs)) by {
      assert qs[p..] == "";
      RemainingNone(key, value, state == 1);
    }
    calls := calls + Report(key, value);
  }

  lemma {:induction false} TakeFirst(s: string, p: nat)
    requires p < |s|
    ensures s[p..] == [s[p]] + s[p + 1..]
  {
  }

  lemma {:induction false} Regroup<T>(a: seq<T>, b: seq<T>, c: seq<T>)
    ensures a + (b + c) == (a + b) + c
  {
  }

  lemma {:induction false} RemainingAll(s: string)
    ensures Remaining("", "", false, s) == Reports(Pieces(s))
  {
    var r := Pieces(s);
    assert "" + KeyOf(r[0]) == KeyOf(r[0]);
  }

  lemma {:induction false} AllToDo(qs: string)
    ensures All([], "", "", false, qs[0..]) == Reports(Pieces(qs))
  {
    RemainingAll(qs);
    assert qs[0..] == qs;
  }

  lemma {:induction false} RemainingNone(key: string, value: string, inValue: bool)
    requires !inValue ==> value == ""
    ensures Remaining(key, value, inValue, "") == Report(key, value)
  {
    assert Pieces("") == [""] && [""][1..] == [];
    assert key + "" == key && value + "" == value;
  }

  lemma {:induction false} RemainingStep(key: string, value: string, inValue: bool, s: string)
    requires s != [] && (!inValue ==> value == "")
    ensures var c, t := s[0], s[1..];
      Remaining(key, value, inValue, s) ==
        if c == '&' then Report(key, value) + Remaining("", "", false, t)
        else if inValue then Remaining(key, value + [c], true, t)
        else if c == '=' then Remaining(key, "", true, t)
        else Remaining(key + [c], "", false, t)
  {
    var c, t := s[0], s[1..];
    var r, r' := Pieces(s), Pieces(t);
    if c == '&' {
      assert r == [""] + r' && r[0] == "" && r[1..] == r';
      assert key + "" == key && value + "" == value;
      assert "" + KeyOf(r'[0]) == KeyOf(r'[0]);
      assert Reports(r') == Report(KeyOf(r'[0]), ValueOf(r'[0])) + Reports(r'[1..]);
    } else {
      assert r[0] == [c] + r'[0] && r[1..] == r'[1..] && r[0][1..] == r'[0];
      assert value + r[0] == (value + [c]) + r'[0];
      assert key + ([c] + KeyOf(r'[0])) == (key + [c]) + KeyOf(r'[0]);
      assert key + "" == key && "" + r'[0] == r'[0];
    }
  }

  // ---------------------------------------------------------------- writing query strings

  function Format(pairs: seq<(string, string)>): string {
    if pairs == [] then ""
    else if |pairs| == 1 then pairs[0].0 + "=" + pairs[0].1
    else pairs[0].0 + "=" + pairs[0].1 + "&" + Format(pairs[1..])
  }

  ghost predicate Writable(pair: (string, string)) {
    (pair.0 != "" || pair.1 != "") && '=' !in pair.0 && '&' !in pair.0 && '&' !in pair.1
  }

  lemma {:induction false} PiecesOf(piece: string, rest: string)
    requires '&' !in piece
    ensures Pieces(piece + "&" + rest) == [piece] + Pieces(rest)
    ensures Pieces(piece) == [piece]
  {
    if piece == "" {
      assert ("&" + rest)[1..] == rest && "" + "&" + rest == "&" + rest;
    } else {
      PiecesOf(piece[1..], rest);
      assert (piece + "&" + rest)[1..] == piece[1..] + "&" + rest;
      assert [piece[0]] + piece[1..] == piece;
      assert ([piece[1..]] + Pieces(rest))[1..] == Pieces(rest);
    }
  }

  lemma {:induction false} KeyAndValue(key: string, value: string)
    requires '=' !in key
    ensures KeyOf(key + "=" + value) == key && ValueOf(key + "=" + value) == value
  {
    if key == "" {
      assert "" + "=" + value == "=" + value && ("=" + value)[1..] == value;
    } else {
      KeyAndValue(key[1..], value);
      assert (key + "=" + value)[1..] == key[1..] + "=" + value;
    }
  }

  // The text of the pieces, with an ampersand between any two.
  function Join(pieces: seq<string>): string {
    if pieces == [] then ""
    else if |pieces| == 1 then pieces[0]
    else pieces[0] + "&" + Join(pieces[1..])
  }

  // The pieces of a text are the only ones without an ampersand that it can be joined from.
  lemma {:induction false} PiecesAre(s: string, pieces: seq<string>)
    ensures pieces == Pieces(s) <==> pieces != [] && (forall p :: p in pieces ==> '&' !in p) && Join(pieces) == s
  {
    PiecesJoin(s);
    if pieces != [] && (forall p :: p in pieces ==> '&' !in p) && Join(pieces) == s { JoinPieces(pieces); }
  }

  lemma {:induction false} PiecesJoin(s: string)
    ensures Join(Pieces(s)) == s && forall p :: p in Pieces(s) ==> '&' !in p
  {
    if s != "" {
      PiecesJoin(s[1..]);
      var r, t := Pieces(s), Pieces(s[1..]);
      if s[0] == '&' {
        assert r[1..] == t && "" + "&" + Join(t) == "&" + Join(t);
        assert "&" + s[1..] == s;
      } else {
        assert r[1..] == t[1..];
        assert [s[0]] + s[1..] == s;
        if |t| > 1 { assert [s[0]] + t[0] + "&" + Join(t[1..]) == [s[0]] + (t[0] + "&" + Join(t[1..])); }
      }
    }
  }

  lemma {:induction false} JoinPieces(pieces: seq<string>)
    requires pieces != [] && forall p :: p in pieces ==> '&' !in p
    ensures Pieces(Join(pieces)) == pieces
  {
    assert pieces == [pieces[0]] + pieces[1..];
    if |pieces| == 1 {
      PiecesOf(pieces[0], "");
    } else {
      assert Pieces(Join(pieces[1..])) == pieces[1..] by { JoinPieces(pieces[1..]); }
      PiecesOf(pieces[0], Join(pieces[1..]));
    }
  }

  // The first '=' of a piece splits it; without one all of it is key.
  lemma {:induction false} PieceSplits(piece: string)
    ensures '=' !in KeyOf(piece)
    ensures if '=' in piece then piece == KeyOf(piece) + "=" + ValueOf(piece)
            else KeyOf(piece) == piece && ValueOf(piece) == ""
  {
    if piece != "" {
      if piece[0] == '=' {
        assert piece == "" + "=" + piece[1..];
      } else {
        PieceSplits(piece[1..]);
        assert piece == [piece[0]] + piece[1..];
      }
    }
  }

  // Parsing a query string gives back the pairs it was written from.
  lemma {:induction false} QueryRoundTrip(pairs: seq<(string, string)>)
    requires forall i :: 0 <= i < |pairs| ==> Writable(pairs[i])
    ensures Reports(Pieces(Format(pairs))) == pairs
    decreases |pairs|
  {
    if pairs != [] {
      var (key, value) := pairs[0];
      assert Writable(pairs[0]);
      var piece := key + "=" + value;
      KeyAndValue(key, value);
      if |pairs| == 1 {
        PiecesOf(piece, "");
        assert [piece][1..] == [];
      } else {
        PiecesOf(piece, Format(pairs[1..]));
        QueryRoundTrip(pairs[1..]);
        assert ([piece] + Pieces(Format(pairs[1..])))[1..] == Pieces(Format(pairs[1..]));
      }
    }
  }
}
