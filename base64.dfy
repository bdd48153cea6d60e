/**
 * Base64 as the bridge and the schema validators use it: Python's
 * `base64.b64encode` (section 4 of RFC 4648, with '=' padding) and the lenient
 * `base64.b64decode(s)` (validate=False). The decoder follows CPython's
 * `binascii.a2b_base64` in non-strict mode: characters outside the alphabet are
 * skipped, a '=' only ends the input once it completes a quantum, and a
 * leftover partial quantum is an error. A `str` argument is first encoded as
 * ASCII, so any non-ASCII character makes decoding fail.
 */
module Base64 {
  import opened Wrappers

  type Byte = b: int | 0 <= b < 256
  type Sextet = v: int | 0 <= v < 64

  const Pad: char := '='

  /** The character of the RFC 4648 section 4 alphabet that encodes `v`. */
  function CharOf(v: Sextet): char {
    if v < 26 then ('A' as int + v) as char
    else if v < 52 then ('a' as int + (v - 26)) as char
    else if v < 62 then ('0' as int + (v - 52)) as char
    else if v == 62 then '+'
    else '/'
  }

  /** The decoding table: the value of an alphabet character, `None` for every other character, '=' included. */
  function ValueOf(c: char): Option<Sextet> {
    if 'A' <= c <= 'Z' then Some(c as int - 'A' as int)
    else if 'a' <= c <= 'z' then Some(c as int - 'a' as int + 26)
    else if '0' <= c <= '9' then Some(c as int - '0' as int + 52)
    else if c == '+' then Some(62)
    else if c == '/' then Some(63)
    else None
  }

  /** Decoding a character of the alphabet gives back the value it encodes. */
  lemma ValueOfCharOf(v: Sextet)
    ensures ValueOf(CharOf(v)) == Some(v)
  {
  }

  predicate IsAscii(s: string) {
    forall i :: 0 <= i < |s| ==> s[i] as int < 128
  }

  /** A character that `Encode` may produce. */
  predicate IsEncodingChar(c: char) {
    ValueOf(c).Some? || c == Pad
  }

  /** `base64.b64encode(data).decode()`: three bytes become four characters, the last quantum padded with '='. */
  function Encode(data: seq<Byte>): (s: string)
    ensures |s| == 4 * ((|data| + 2) / 3)
    decreases |data|
  {
    if |data| == 0 then ""
    else if |data| == 1 then
      [CharOf(data[0] / 4), CharOf((data[0] % 4) * 16), Pad, Pad]
    else if |data| == 2 then
      [CharOf(data[0] / 4), CharOf((data[0] % 4) * 16 + data[1] / 16), CharOf((data[1] % 16) * 4), Pad]
    else
      [CharOf(data[0] / 4), CharOf((data[0] % 4) * 16 + data[1] / 16),
       CharOf((data[1] % 16) * 4 + data[2] / 64), CharOf(data[2] % 64)]
      + Encode(data[3..])
  }

  datatype DecodeError =
    | NonAscii          // str.encode('ascii') failed
    | ExcessData        // one data character more than a multiple of four
    | IncorrectPadding  // a quantum of two or three data characters left unterminated

  type QuadPos = q: int | 0 <= q < 4

  /** The decoder's registers: position in the current quantum, the bits carried over, the run of '=' seen, and the output so far. */
  datatype State = State(quadPos: QuadPos, leftChar: nat, pads: nat, out: seq<Byte>)

  const Start: State := State(0, 0, 0, [])

  /** One data character: emit a byte whenever eight bits are complete (bit fields are disjoint, so `|` is `+`; the byte store truncates). */
  function Consume(st: State, v: Sextet): State {
    if st.quadPos == 0 then State(1, v, 0, st.out)
    else if st.quadPos == 1 then State(2, v % 16, 0, st.out + [(st.leftChar * 4 + v / 16) % 256])
    else if st.quadPos == 2 then State(3, v % 4, 0, st.out + [(st.leftChar * 16 + v / 4) % 256])
    else State(0, 0, 0, st.out + [(st.leftChar * 64 + v) % 256])
  }

  /** The decoding loop over the remaining characters `s`. */
  function DecodeFrom(s: string, st: State): Result<seq<Byte>, DecodeError>
    decreases |s|
  {
    if s == [] then
      if st.quadPos == 0 then Success(st.out)
      else if st.quadPos == 1 then Failure(ExcessData)
      else Failure(IncorrectPadding)
    else if s[0] == Pad then
      if st.quadPos >= 2 && st.quadPos + st.pads + 1 >= 4 then Success(st.out)
      else DecodeFrom(s[1..], if st.quadPos >= 2 then st.(pads := st.pads + 1) else st)
    else
      match ValueOf(s[0])
      case None => DecodeFrom(s[1..], st)
      case Some(v) => DecodeFrom(s[1..], Consume(st, v))
  }

  /** `base64.b64decode(s)` for a `str` argument. */
  function Decode(s: string): Result<seq<Byte>, DecodeError> {
    if !IsAscii(s) then Failure(NonAscii) else DecodeFrom(s, Start)
  }

  // ---------------------------------------------------------------------------
  // Round trip: decoding what the encoder produced gives back the bytes.

  lemma FirstByte(x: Byte, y: Byte)
    ensures ((x / 4) * 4 + ((x % 4) * 16 + y / 16) / 16) % 256 == x
    ensures ((x % 4) * 16 + y / 16) % 16 == y / 16
  {
  }

  lemma SecondByte(y: Byte, z: Byte)
    ensures ((y / 16) * 16 + ((y % 16) * 4 + z / 64) / 4) % 256 == y
    ensures ((y % 16) * 4 + z / 64) % 4 == z / 64
  {
  }

  lemma ThirdByte(z: Byte)
    ensures ((z / 64) * 64 + z % 64) % 256 == z
  {
  }

  /** A full quantum of four data characters appends its three bytes and returns the decoder to the start of a quantum. */
  lemma DecodeQuantum(x: Byte, y: Byte, z: Byte, rest: string, out: seq<Byte>)
    ensures DecodeFrom([CharOf(x / 4), CharOf((x % 4) * 16 + y / 16), CharOf((y % 16) * 4 + z / 64), CharOf(z % 64)] + rest,
                       State(0, 0, 0, out))
         == DecodeFrom(rest, State(0, 0, 0, out + [x, y, z]))
  {
    var c0, c1, c2, c3 := x / 4, (x % 4) * 16 + y / 16, (y % 16) * 4 + z / 64, z % 64;
    var s := [CharOf(c0), CharOf(c1), CharOf(c2), CharOf(c3)] + rest;
    ValueOfCharOf(c0); ValueOfCharOf(c1); ValueOfCharOf(c2); ValueOfCharOf(c3);
    FirstByte(x, y); SecondByte(y, z); ThirdByte(z);
    var st1 := Consume(State(0, 0, 0, out), c0);
    var st2 := Consume(st1, c1);
    var st3 := Consume(st2, c2);
    var st4 := Consume(st3, c3);
    assert st2 == State(2, y / 16, 0, out + [x]);
    assert st3 == State(3, z / 64, 0, out + [x, y]);
    assert st4 == State(0, 0, 0, out + [x, y, z]);
    assert s[1..][1..][1..][1..] == rest;
    calc {
      DecodeFrom(s, State(0, 0, 0, out));
      DecodeFrom(s[1..], st1);
      DecodeFrom(s[1..][1..], st2);
      DecodeFrom(s[1..][1..][1..], st3);
      DecodeFrom(rest, st4);
    }
  }

  /** A final quantum of one byte, "xx==", ends decoding with that byte appended. */
  lemma DecodeOneByteTail(x: Byte, out: seq<Byte>)
    ensures DecodeFrom(Encode([x]), State(0, 0, 0, out)) == Success(out + [x])
  {
    var c0, c1 := x / 4, (x % 4) * 16;
    var s := Encode([x]);
    assert s == [CharOf(c0), CharOf(c1), Pad, Pad];
    ValueOfCharOf(c0); ValueOfCharOf(c1);
    FirstByte(x, 0);
    var st1 := Consume(State(0, 0, 0, out), c0);
    var st2 := Consume(st1, c1);
    assert st2 == State(2, 0, 0, out + [x]);
    assert s[1..][1..] == [Pad, Pad];
    calc {
      DecodeFrom(s, State(0, 0, 0, out));
      DecodeFrom(s[1..], st1);
      DecodeFrom(s[1..][1..], st2);
      DecodeFrom(s[1..][1..][1..], st2.(pads := 1));
      Success(out + [x]);
    }
  }

  /** A final quantum of two bytes, "xxx=", ends decoding with both bytes appended. */
  lemma DecodeTwoBytesTail(x: Byte, y: Byte, out: seq<Byte>)
    ensures DecodeFrom(Encode([x, y]), State(0, 0, 0, out)) == Success(out + [x, y])
  {
    var c0, c1, c2 := x / 4, (x % 4) * 16 + y / 16, (y % 16) * 4;
    var s := Encode([x, y]);
    assert s == [CharOf(c0), CharOf(c1), CharOf(c2), Pad];
    ValueOfCharOf(c0); ValueOfCharOf(c1); ValueOfCharOf(c2);
    FirstByte(x, y); SecondByte(y, 0);
    var st1 := Consume(State(0, 0, 0, out), c0);
    var st2 := Consume(st1, c1);
    var st3 := Consume(st2, c2);
    assert st3 == State(3, 0, 0, out + [x, y]);
    assert s[1..][1..][1..] == [Pad];
    calc {
      DecodeFrom(s, State(0, 0, 0, out));
      DecodeFrom(s[1..], st1);
      DecodeFrom(s[1..][1..], st2);
      DecodeFrom(s[1..][1..][1..], st3);
      Success(out + [x, y]);
    }
  }

  lemma {:induction false} DecodeEncodeFrom(data: seq<Byte>, out: seq<Byte>)
    ensures DecodeFrom(Encode(data), State(0, 0, 0, out)) == Success(out + data)
    decreases |data|
  {
    if |data| == 0 {
      assert out + data == out;
    } else if |data| == 1 {
      assert data == [data[0]];
      DecodeOneByteTail(data[0], out);
    } else if |data| == 2 {
      assert data == [data[0], data[1]];
      DecodeTwoBytesTail(data[0], data[1], out);
    } else {
      var x, y, z := data[0], data[1], data[2];
      DecodeQuantum(x, y, z, Encode(data[3..]), out);
      DecodeEncodeFrom(data[3..], out + [x, y, z]);
      assert out + [x, y, z] + data[3..] == out + data;
    }
  }

  /** The encoder's output is ASCII, so the ASCII step of `b64decode` never fails on it. */
  lemma {:induction false} EncodeIsAscii(data: seq<Byte>)
    ensures IsAscii(Encode(data))
    decreases |data|
  {
    var s := Encode(data);
    if |data| >= 3 {
      EncodeIsAscii(data[3..]);
      var rest := Encode(data[3..]);
      forall i | 0 <= i < |s| ensures s[i] as int < 128 {
        if i >= 4 {
          assert s[i] == rest[i - 4];
        }
      }
    }
  }

  /** b64decode(b64encode(d)) == d for every byte string d. */
  lemma RoundTrip(data: seq<Byte>)
    ensures Decode(Encode(data)) == Success(data)
  {
    EncodeIsAscii(data);
    DecodeEncodeFrom(data, []);
    assert [] + data == data;
  }

  // ---------------------------------------------------------------------------
  // Lenience: what the decoder ignores, and when unpadded input is accepted.

  /** The characters the decoder looks at: alphabet characters and '='. */
  function Clean(s: string): (r: string)
    ensures |r| <= |s|
    ensures forall i :: 0 <= i < |r| ==> IsEncodingChar(r[i])
    decreases |s|
  {
    if s == [] then []
    else if IsEncodingChar(s[0]) then [s[0]] + Clean(s[1..])
    else Clean(s[1..])
  }

  /** Characters outside the alphabet (other than '=') are discarded: they never change the outcome. */
  lemma {:induction false} SkipsForeignChars(s: string, st: State)
    ensures DecodeFrom(s, st) == DecodeFrom(Clean(s), st)
    decreases |s|
  {
    if s != [] {
      if IsEncodingChar(s[0]) {
        var c := Clean(s);
        assert c[0] == s[0] && c[1..] == Clean(s[1..]);
        if s[0] == Pad {
          if !(st.quadPos >= 2 && st.quadPos + st.pads + 1 >= 4) {
            SkipsForeignChars(s[1..], if st.quadPos >= 2 then st.(pads := st.pads + 1) else st);
          }
        } else {
          SkipsForeignChars(s[1..], Consume(st, ValueOf(s[0]).value));
        }
      } else {
        SkipsForeignChars(s[1..], st);
      }
    }
  }

  /** The number of alphabet characters in `s`. */
  function DataCount(s: string): nat
    decreases |s|
  {
    if s == [] then 0 else (if ValueOf(s[0]).Some? then 1 else 0) + DataCount(s[1..])
  }

  /**
   * Input without any '=' is accepted exactly when the decoder ends on a
   * quantum boundary, and a single dangling data character is `ExcessData`.
   */
  lemma {:induction false} UnpaddedOutcome(s: string, st: State)
    requires forall i :: 0 <= i < |s| ==> s[i] != Pad
    ensures DecodeFrom(s, st).Success? <==> (st.quadPos + DataCount(s)) % 4 == 0
    ensures (st.quadPos + DataCount(s)) % 4 == 1 ==> DecodeFrom(s, st) == Failure(ExcessData)
    decreases |s|
  {
    if s != [] {
      match ValueOf(s[0])
      case None => UnpaddedOutcome(s[1..], st);
      case Some(v) => UnpaddedOutcome(s[1..], Consume(st, v));
    }
  }

  /** "not base64!" keeps nine alphabet characters, one more than a multiple of four, so decoding fails. */
  lemma NotBase64Rejected()
    ensures Decode("not base64!") == Failure(ExcessData)
  {
    var s := "not base64!";
    assert DataCount(s[10..]) == 0;
    assert DataCount(s[9..]) == 1;
    assert DataCount(s[8..]) == 2;
    assert DataCount(s[7..]) == 3;
    assert DataCount(s[6..]) == 4;
    assert DataCount(s[5..]) == 5;
    assert DataCount(s[4..]) == 6;
    assert DataCount(s[3..]) == 6;
    assert DataCount(s[2..]) == 7;
    assert DataCount(s[1..]) == 8;
    assert DataCount(s) == 9;
    UnpaddedOutcome(s, Start);
  }
}
