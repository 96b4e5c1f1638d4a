/**
 * Build-constant injection: `addDefinition` formats `#define <ID> <value>u\n`
 * into a 256-byte buffer and inserts it at the front of the kernel source.
 */
module KernelSource {
  import opened Numerics
  import opened Decimal

  /** Size of the `char buf[256]` that `sprintf` writes into. */
  const BUF_SIZE: nat := 256
  /** Longest identifier whose line, with ten digits and the NUL, still fits the buffer. */
  const MAX_ID_LENGTH: nat := 234
  /** `ETHASH_ACCESSES` of the ethash library. */
  const ETHASH_ACCESSES: u32 := 64

  datatype Definition = Definition(id: string, value: nat)

  /** A C string: a `char const*` ends at its first NUL, so it holds none. */
  predicate IsCString(s: string) {
    forall i :: 0 <= i < |s| ==> s[i] != '\0'
  }

  /** The text `sprintf(buf, "#define %s %uu\n", id, value)` produces. */
  function DefinitionLine(d: Definition): (line: string)
    ensures |line| == |d.id| + |Digits(d.value)| + 11
    ensures line[0] == '#' && line[|line| - 1] == '\n'
  {
    "#define " + d.id + " " + Digits(d.value) + "u\n"
  }

  /** `strlen`: the length of the prefix before the first NUL. */
  function CStrLen(s: string): (n: nat)
    ensures n <= |s|
    ensures IsCString(s[..n])
    ensures n < |s| ==> s[n] == '\0'
  {
    if s == [] then 0
    else if s[0] == '\0' then 0
    else 1 + CStrLen(s[1..])
  }

  /** The formatted line and its terminating NUL fit the buffer, and `strlen` sees all of it. */
  lemma LineFitsBuffer(d: Definition)
    requires IsCString(d.id) && |d.id| <= MAX_ID_LENGTH && d.value < TWO_32
    ensures |DefinitionLine(d)| + 1 <= BUF_SIZE
    ensures IsCString(DefinitionLine(d))
    ensures CStrLen(DefinitionLine(d)) == |DefinitionLine(d)|
  {
    DigitsOfU32(d.value);
    CStrLenOfCString(DefinitionLine(d));
  }

  lemma {:induction false} CStrLenOfCString(s: string)
    requires IsCString(s)
    ensures CStrLen(s) == |s|
  {
    if s != [] {
      CStrLenOfCString(s[1..]);
    }
  }

  /** The kernel source string that `addDefinition` updates in place. */
  class KernelCode {
    var text: string

    constructor (template: string)
      ensures text == template
    {
      text := template;
    }

    /** `addDefinition(code, id, value)`: the formatted line goes in front of the old text. */
    method AddDefinition(id: string, value: u32)
      requires IsCString(id) && |id| <= MAX_ID_LENGTH
      modifies this
      ensures text == DefinitionLine(Definition(id, value)) + old(text)
    {
      var buf := DefinitionLine(Definition(id, value));
      LineFitsBuffer(Definition(id, value));
      var len := CStrLen(buf);
      text := buf[..len] + text;
    }
  }

  /** The text after calling `addDefinition` once per element of `defs`, in order, on `template`. */
  function Prepended(template: string, defs: seq<Definition>): (text: string)
  {
    if defs == [] then template
    else DefinitionLine(defs[|defs| - 1]) + Prepended(template, defs[..|defs| - 1])
  }

  /** The lines of `defs`, first to last. */
  function Lines(defs: seq<Definition>): (text: string)
  {
    if defs == [] then [] else DefinitionLine(defs[0]) + Lines(defs[1..])
  }

  function Reversed<T>(s: seq<T>): (r: seq<T>)
    ensures |r| == |s|
  {
    if s == [] then [] else [s[|s| - 1]] + Reversed(s[..|s| - 1])
  }

  /** Successive insertions at the front leave the lines in reverse call order, then the template. */
  lemma {:induction false} PrependedIsReversedLines(template: string, defs: seq<Definition>)
    ensures Prepended(template, defs) == Lines(Reversed(defs)) + template
  {
    if defs != [] {
      var init := defs[..|defs| - 1];
      PrependedIsReversedLines(template, init);
      var r := Reversed(defs);
      assert r[0] == defs[|defs| - 1];
      assert r[1..] == Reversed(init);
    }
  }

  /** The template survives as an exact suffix, behind exactly the prepended lines. */
  lemma TemplateIsSuffix(template: string, defs: seq<Definition>)
    ensures |Prepended(template, defs)| == |Lines(Reversed(defs))| + |template|
    ensures Prepended(template, defs)[|Lines(Reversed(defs))|..] == template
  {
    PrependedIsReversedLines(template, defs);
  }

  /** The five definitions of the DAG kernel, in the order `main` adds them. */
  function BuildConstants(dagSize128: u32, lightSize64: u32): (defs: seq<Definition>) {
    [ Definition("GROUP_SIZE", 64),
      Definition("DAG_SIZE", dagSize128),
      Definition("LIGHT_SIZE", lightSize64),
      Definition("ACCESSES", ETHASH_ACCESSES),
      Definition("MAX_OUTPUTS", 1) ]
  }

  /** The five `addDefinition` calls on the kernel source. */
  method InjectBuildConstants(code: KernelCode, dagSize128: u32, lightSize64: u32)
    modifies code
    ensures code.text == Prepended(old(code.text), BuildConstants(dagSize128, lightSize64))
  {
    ghost var template := code.text;
    var defs := BuildConstants(dagSize128, lightSize64);
    code.AddDefinition("GROUP_SIZE", 64);
    assert code.text == Prepended(template, defs[..1]);
    code.AddDefinition("DAG_SIZE", dagSize128);
    assert defs[..2][..1] == defs[..1];
    assert code.text == Prepended(template, defs[..2]);
    code.AddDefinition("LIGHT_SIZE", lightSize64);
    assert defs[..3][..2] == defs[..2];
    assert code.text == Prepended(template, defs[..3]);
    code.AddDefinition("ACCESSES", ETHASH_ACCESSES);
    assert defs[..4][..3] == defs[..3];
    assert code.text == Prepended(template, defs[..4]);
    code.AddDefinition("MAX_OUTPUTS", 1);
    assert defs[..5] == defs;
  }

  // ---------------------------------------------------------------------------
  // Reading the definitions back: the inverse of the prepending above.

  /** Index of the first `c` in `s`, or `|s|` when there is none. */
  function IndexOf(s: string, c: char): (k: nat)
    ensures k <= |s|
    ensures forall j :: 0 <= j < k ==> s[j] != c
    ensures k < |s| ==> s[k] == c
  {
    if s == [] then 0
    else if s[0] == c then 0
    else 1 + IndexOf(s[1..], c)
  }

  /** Number of leading decimal digits of `s`. */
  function DigitSpan(s: string): (k: nat)
    ensures k <= |s|
    ensures AllDigits(s[..k])
    ensures k < |s| ==> !IsDigit(s[k])
  {
    if s == [] then 0
    else if !IsDigit(s[0]) then 0
    else 1 + DigitSpan(s[1..])
  }

  /** Reads `<digits>u\n` off the front of `t`: the value and the text after the line. */
  function ParseValue(t: string): (r: Option<(nat, string)>)
  {
    var n := DigitSpan(t);
    if n == 0 || |t| < n + 2 || t[n..n + 2] != "u\n" then None
    else Some((Value(t[..n]), t[n + 2..]))
  }

  /** Reads one `#define <ID> <digits>u\n` line off the front of `s`. */
  function ParseDefinition(s: string): (r: Option<(Definition, string)>)
  {
    if |s| < 8 || s[..8] != "#define " then None
    else
      var r := s[8..];
      var i := IndexOf(r, ' ');
      if i == |r| then None
      else match ParseValue(r[i + 1..])
        case None => None
        case Some((v, rest)) => Some((Definition(r[..i], v), rest))
  }

  /** Reads `k` definition lines off the front of `s`, returning them and the remaining text. */
  function ParseDefinitions(s: string, k: nat): (r: Option<(seq<Definition>, string)>)
  {
    if k == 0 then Some(([], s))
    else match ParseDefinition(s)
      case None => None
      case Some((d, rest)) =>
        match ParseDefinitions(rest, k - 1)
        case None => None
        case Some((ds, tail)) => Some(([d] + ds, tail))
  }

  predicate NoSpace(id: string) {
    forall i :: 0 <= i < |id| ==> id[i] != ' '
  }

  lemma {:induction false} IndexOfPrefix(a: string, b: string, c: char)
    requires forall i :: 0 <= i < |a| ==> a[i] != c
    requires b != [] && b[0] == c
    ensures IndexOf(a + b, c) == |a|
  {
    if a != [] {
      assert (a + b)[1..] == a[1..] + b;
      IndexOfPrefix(a[1..], b, c);
    }
  }

  lemma {:induction false} DigitSpanPrefix(a: string, b: string)
    requires AllDigits(a)
    requires b != [] && !IsDigit(b[0])
    ensures DigitSpan(a + b) == |a|
  {
    if a != [] {
      assert (a + b)[1..] == a[1..] + b;
      assert AllDigits(a[1..]);
      DigitSpanPrefix(a[1..], b);
    }
  }

  lemma ParseValueOfDigits(v: nat, rest: string)
    ensures ParseValue(Digits(v) + ("u\n" + rest)) == Some((v, rest))
  {
    var digits := Digits(v);
    var t := digits + ("u\n" + rest);
    DigitSpanPrefix(digits, "u\n" + rest);
    var n := |digits|;
    assert t[..n] == digits;
    assert t[n..n + 2] == "u\n";
    assert t[n + 2..] == rest;
    ValueOfDigits(v);
  }

  /** A formatted line parses back to its identifier and value, leaving what follows it. */
  lemma ParseDefinitionLine(d: Definition, rest: string)
    requires NoSpace(d.id)
    ensures ParseDefinition(DefinitionLine(d) + rest) == Some((d, rest))
  {
    var t := Digits(d.value) + ("u\n" + rest);
    var r := d.id + (" " + t);
    var s := DefinitionLine(d) + rest;
    assert s == "#define " + r;
    assert s[..8] == "#define ";
    assert s[8..] == r;
    IndexOfPrefix(d.id, " " + t, ' ');
    assert r[|d.id| + 1..] == t;
    assert r[..|d.id|] == d.id;
    ParseValueOfDigits(d.value, rest);
  }

  /** Concatenated lines parse back to the same definitions, in the same order. */
  lemma {:induction false} ParseLines(defs: seq<Definition>, rest: string)
    requires forall i :: 0 <= i < |defs| ==> NoSpace(defs[i].id)
    ensures ParseDefinitions(Lines(defs) + rest, |defs|) == Some((defs, rest))
  {
    if defs != [] {
      var tail := Lines(defs[1..]) + rest;
      assert Lines(defs) + rest == DefinitionLine(defs[0]) + tail;
      ParseDefinitionLine(defs[0], tail);
      ParseLines(defs[1..], rest);
      assert ParseDefinitions(tail, |defs| - 1) == Some((defs[1..], rest));
      assert [defs[0]] + defs[1..] == defs;
    } else {
      assert Lines(defs) + rest == rest;
    }
  }

  /**
   * After the five calls of `main`, the source starts with the MAX_OUTPUTS,
   * ACCESSES, LIGHT_SIZE, DAG_SIZE and GROUP_SIZE lines, in that order, and
   * then the untouched template.
   */
  lemma BuildConstantsOrder(template: string, dagSize128: u32, lightSize64: u32)
    ensures ParseDefinitions(Prepended(template, BuildConstants(dagSize128, lightSize64)), 5)
      == Some(([ Definition("MAX_OUTPUTS", 1),
                 Definition("ACCESSES", ETHASH_ACCESSES),
                 Definition("LIGHT_SIZE", lightSize64),
                 Definition("DAG_SIZE", dagSize128),
                 Definition("GROUP_SIZE", 64) ], template))
  {
    var defs := BuildConstants(dagSize128, lightSize64);
    var rev := [ Definition("MAX_OUTPUTS", 1),
                 Definition("ACCESSES", ETHASH_ACCESSES),
                 Definition("LIGHT_SIZE", lightSize64),
                 Definition("DAG_SIZE", dagSize128),
                 Definition("GROUP_SIZE", 64) ];
    assert Reversed(defs) == rev by {
      assert Reversed(defs[..1]) == [defs[0]];
      assert defs[..2][..1] == defs[..1];
      assert Reversed(defs[..2]) == [defs[1], defs[0]];
      assert defs[..3][..2] == defs[..2];
      assert Reversed(defs[..3]) == [defs[2], defs[1], defs[0]];
      assert defs[..4][..3] == defs[..3];
      assert Reversed(defs[..4]) == [defs[3], defs[2], defs[1], defs[0]];
      assert defs[..4] == defs[..|defs| - 1];
    }
    PrependedIsReversedLines(template, defs);
    ParseLines(rev, template);
  }
}
