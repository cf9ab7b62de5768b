/** The textual register dump `[v0,v1,...,vN-1]` of
    `register_values_to_string`, as a recursive reference definition, and
    what it looks like when every register holds a bit. */
module Rendering {
  import opened Semantics

  /** The character of a decimal digit. */
  function DigitChar(d: nat): (c: char)
    requires d < 10
    ensures '0' <= c <= '9' && c as int - '0' as int == d
  {
    ('0' as int + d) as char
  }

  /** Rust's `{}` formatting of an unsigned integer: its decimal digits,
      most significant first, with no leading zeros. */
  function DecimalString(n: nat): (s: string)
    ensures 1 <= |s|
    ensures forall i :: 0 <= i < |s| ==> '0' <= s[i] <= '9'
    ensures n < 10 ==> s == [DigitChar(n)]
    ensures 10 <= n ==> s[0] != '0'
  {
    if n < 10 then [DigitChar(n)] else DecimalString(n / 10) + [DigitChar(n % 10)]
  }

  /** The value of a string of decimal digits. */
  function DecimalValue(s: string): (n: nat)
    requires forall i :: 0 <= i < |s| ==> '0' <= s[i] <= '9'
  {
    if s == [] then 0 else 10 * DecimalValue(s[..|s| - 1]) + (s[|s| - 1] as int - '0' as int)
  }

  /** Decimal formatting loses nothing: reading the digits back gives the
      number. */
  lemma {:induction false} DecimalRoundTrip(n: nat)
    ensures DecimalValue(DecimalString(n)) == n
  {
    if 10 <= n {
      var s := DecimalString(n);
      assert s[..|s| - 1] == DecimalString(n / 10);
      DecimalRoundTrip(n / 10);
    }
  }

  /** The register values separated by commas, with no trailing comma. */
  function Join(registers: seq<U8>): (s: string)
    ensures registers == [] <==> s == ""
    ensures registers != [] ==> |s| >= 2 * |registers| - 1
    decreases |registers|
  {
    if |registers| == 0 then ""
    else if |registers| == 1 then DecimalString(registers[0] as nat)
    else DecimalString(registers[0] as nat) + "," + Join(registers[1..])
  }

  /** `Join` from position `i` is the value at `i`, a comma unless it is
      the last, and `Join` from `i + 1`. */
  lemma JoinFrom(registers: seq<U8>, i: nat)
    requires i < |registers|
    ensures Join(registers[i..]) ==
              DecimalString(registers[i] as nat) + (if i < |registers| - 1 then "," else "") +
              Join(registers[i + 1..])
  {
    if i < |registers| - 1 {
      assert registers[i..][1..] == registers[i + 1..];
    }
  }

  /** The dump: the comma-separated values between brackets. */
  function Render(registers: seq<U8>): (s: string)
    ensures |s| >= 2 * |registers| + 1 || (registers == [] && s == "[]")
    ensures s[0] == '[' && s[|s| - 1] == ']'
  {
    "[" + Join(registers) + "]"
  }

  /** The character a bit register is shown as. */
  function BitChar(b: U8): (c: char)
    requires b == 0 || b == 1
    ensures c == '0' || c == '1'
    ensures (c == '1') == (b == 1)
  {
    if b == 0 then '0' else '1'
  }

  /** With bit registers, value `k` sits at even position `2k` of `Join`
      and a comma at every odd position. */
  lemma {:induction false} JoinBits(registers: seq<U8>)
    requires AllBits(registers)
    ensures |Join(registers)| == if registers == [] then 0 else 2 * |registers| - 1
    ensures forall j :: 0 <= j < |Join(registers)| ==>
              Join(registers)[j] == if j % 2 == 0 then BitChar(registers[j / 2]) else ','
  {
    if |registers| > 1 {
      var rest := registers[1..];
      assert AllBits(rest) by {
        forall i | 0 <= i < |rest| ensures rest[i] == 0 || rest[i] == 1 {
          assert rest[i] == registers[i + 1];
        }
      }
      JoinBits(rest);
      var s := Join(registers);
      assert s == [BitChar(registers[0])] + [','] + Join(rest);
      forall j | 2 <= j < |s|
        ensures s[j] == if j % 2 == 0 then BitChar(registers[j / 2]) else ','
      {
        assert s[j] == Join(rest)[j - 2];
        assert rest[(j - 2) / 2] == registers[j / 2];
      }
    }
  }

  /** The dump of a bit register bank of `n` registers has `2n+1`
      characters (2 when empty): `[` first, `]` last, value `k` at position
      `2k+1`, and commas between the values. */
  lemma RenderBits(registers: seq<U8>)
    requires AllBits(registers)
    ensures |Render(registers)| == if registers == [] then 2 else 2 * |registers| + 1
    ensures Render(registers)[0] == '['
    ensures Render(registers)[|Render(registers)| - 1] == ']'
    ensures forall j :: 0 < j < |Render(registers)| - 1 ==>
              Render(registers)[j] == if (j - 1) % 2 == 0 then BitChar(registers[(j - 1) / 2]) else ','
  {
    JoinBits(registers);
    var s := Render(registers);
    forall j | 0 < j < |s| - 1
      ensures s[j] == if (j - 1) % 2 == 0 then BitChar(registers[(j - 1) / 2]) else ','
    {
      assert s[j] == Join(registers)[j - 1];
    }
  }

  /** The dump of four bit registers, character by character. */
  lemma RenderFourBits(registers: seq<U8>)
    requires |registers| == 4 && AllBits(registers)
    ensures Render(registers) ==
              ['[', BitChar(registers[0]), ',', BitChar(registers[1]), ',',
               BitChar(registers[2]), ',', BitChar(registers[3]), ']']
  {
    RenderBits(registers);
    var s := Render(registers);
    assert s[1] == BitChar(registers[0]) && s[2] == ',' && s[3] == BitChar(registers[1]) && s[4] == ',';
    assert s[5] == BitChar(registers[2]) && s[6] == ',' && s[7] == BitChar(registers[3]);
  }
}
