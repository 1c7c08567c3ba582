/** Accelerators: how the name of an NVIDIA architecture is written and read, and what the
    runtime contract of a host prefers. */
module Accelerator {
  import opened Ordering
  import opened Collections
  import opened Decimal
  import opened Types
  import opened RequestNormalization

  // ---------------------------------------------------------------------------
  // Text

  /** The characters with the Unicode property White_Space. */
  predicate IsSpace(ch: char) {
    var code := ch as int;
    || 0x9 <= code <= 0xD || code == 0x20 || code == 0x85 || code == 0xA0 || code == 0x1680
    || 0x2000 <= code <= 0x200A || code == 0x2028 || code == 0x2029 || code == 0x202F || code == 0x205F
    || code == 0x3000
  }

  predicate Spaces(s: string) { forall i :: 0 <= i < |s| ==> IsSpace(s[i]) }

  function TrimStart(s: string): string { if s != [] && IsSpace(s[0]) then TrimStart(s[1..]) else s }

  function TrimEnd(s: string): string {
    if s != [] && IsSpace(s[|s| - 1]) then TrimEnd(s[..|s| - 1]) else s
  }

  function Trim(s: string): string { TrimEnd(TrimStart(s)) }

  function StripPrefix(s: string, prefix: string): Option<string> {
    if prefix <= s then Some(s[|prefix|..]) else None
  }

  /** A decimal number of sixteen bits, with or without a plus sign. */
  function ParseU16(s: string): Option<u16> {
    var digits := if s != [] && s[0] == '+' then s[1..] else s;
    if digits != [] && Digits(digits) && NumberOf(digits) < 0x1_0000 then Some(NumberOf(digits)) else None
  }

  lemma {:induction false} TrimStartSplits(s: string) returns (before: string)
    ensures Spaces(before) && s == before + TrimStart(s)
  {
    if s != [] && IsSpace(s[0]) {
      var rest := TrimStartSplits(s[1..]);
      before := [s[0]] + rest;
    } else {
      before := [];
    }
  }

  lemma {:induction false} TrimEndSplits(s: string) returns (after: string)
    ensures Spaces(after) && s == TrimEnd(s) + after
  {
    if s != [] && IsSpace(s[|s| - 1]) {
      var rest := TrimEndSplits(s[..|s| - 1]);
      after := rest + [s[|s| - 1]];
    } else {
      after := [];
    }
  }

  lemma {:induction false} TrimStartSkips(before: string, s: string)
    requires Spaces(before) && s != [] && !IsSpace(s[0])
    ensures TrimStart(before + s) == s
  {
    if before == [] {
      assert before + s == s;
    } else {
      assert (before + s)[1..] == before[1..] + s;
      TrimStartSkips(before[1..], s);
    }
  }

  lemma {:induction false} TrimEndSkips(s: string, after: string)
    requires Spaces(after) && s != [] && !IsSpace(s[|s| - 1])
    ensures TrimEnd(s + after) == s
  {
    if after == [] {
      assert s + after == s;
    } else {
      var m := |after| - 1;
      assert (s + after)[..|s + after| - 1] == s + after[..m];
      TrimEndSkips(s, after[..m]);
    }
  }

  lemma TrimSkips(before: string, s: string, after: string)
    requires Spaces(before) && Spaces(after) && s != [] && !IsSpace(s[0]) && !IsSpace(s[|s| - 1])
    ensures Trim(before + s + after) == s
  {
    assert before + s + after == before + (s + after);
    TrimStartSkips(before, s + after);
    TrimEndSkips(s, after);
  }

  lemma TrimSplits(s: string) returns (before: string, after: string)
    ensures Spaces(before) && Spaces(after) && s == before + Trim(s) + after
  {
    before := TrimStartSplits(s);
    after := TrimEndSplits(TrimStart(s));
  }

  // ---------------------------------------------------------------------------
  // Architecture names

  datatype NvidiaClass = Ampere | Ada | Hopper | Blackwell

  predicate SupportsGraphs(c: NvidiaClass) { true }

  predicate SupportsTma(c: NvidiaClass) { c == Hopper || c == Blackwell }

  predicate SupportsNvfp4(c: NvidiaClass) { c == Blackwell }

  function ClassOf(n: nat): Option<NvidiaClass> {
    if n == 80 || n == 86 || n == 87 then Some(Ampere)
    else if n == 89 then Some(Ada)
    else if n == 90 then Some(Hopper)
    else if 100 <= n < 0x1_0000 then Some(Blackwell)
    else None
  }

  /** The number behind a prefix of a trimmed name. */
  function NumberAfter(arch: string, prefix: string): Option<u16> {
    var rest := StripPrefix(Trim(arch), prefix);
    if rest.None? then None else ParseU16(rest.value)
  }

  /** The source strips "sm", and "sm_" where that fails. */
  function ParseNvidiaClass(arch: string): Option<NvidiaClass> {
    var stripped := StripPrefix(Trim(arch), "sm");
    var digits := if stripped.Some? then stripped else StripPrefix(Trim(arch), "sm_");
    if digits.None? then None
    else
      var number := ParseU16(digits.value);
      if number.None? then None else ClassOf(number.value)
  }

  /** The name is the prefix and the number, perhaps with a plus sign and zeros before the
      number, and with white space around it. */
  ghost predicate Spells(prefix: string, arch: string, n: nat) {
    exists before, plus, digits, after :: Spelled(prefix, arch, n, before, plus, digits, after)
  }

  ghost predicate Spelled(prefix: string, arch: string, n: nat, before: string, plus: string, digits: string,
                          after: string) {
    && Spaces(before) && Spaces(after) && (plus == "" || plus == "+")
    && digits != [] && Digits(digits) && NumberOf(digits) == n
    && arch == before + (prefix + plus + digits) + after
  }

  lemma NumberSplits(s: string) returns (plus: string, digits: string)
    requires ParseU16(s).Some?
    ensures s == plus + digits && (plus == "" || plus == "+")
    ensures digits != [] && Digits(digits) && NumberOf(digits) == ParseU16(s).value
  {
    if s[0] == '+' {
      plus, digits := "+", s[1..];
    } else {
      plus, digits := "", s;
    }
  }

  lemma NumberIsSpelled(prefix: string, arch: string)
    requires NumberAfter(arch, prefix).Some?
    ensures Spells(prefix, arch, NumberAfter(arch, prefix).value)
  {
    hide Trim, ParseU16, NumberOf, Spaces, Digits;
    var before, after := TrimSplits(arch);
    var rest := StripPrefix(Trim(arch), prefix).value;
    var plus, digits := NumberSplits(rest);
    assert Trim(arch) == prefix + plus + digits;
    assert Spelled(prefix, arch, NumberAfter(arch, prefix).value, before, plus, digits, after);
  }

  lemma SpelledIsRead(prefix: string, arch: string, n: nat)
    requires prefix != [] && !IsSpace(prefix[0]) && Spells(prefix, arch, n)
    ensures NumberAfter(arch, prefix) == if n < 0x1_0000 then Some(n) else None
    ensures prefix <= Trim(arch)
  {
    var before, plus, digits, after :| Spelled(prefix, arch, n, before, plus, digits, after);
    var name := prefix + plus + digits;
    assert name[|name| - 1] == digits[|digits| - 1];
    TrimSkips(before, name, after);
    assert name[|prefix|..] == plus + digits;
    if plus == "+" {
      assert (plus + digits)[1..] == digits;
    } else {
      assert plus + digits == digits && IsDigit(digits[0]);
    }
  }

  /** The names that are read, exactly. */
  lemma RecognizedExactly(arch: string, c: NvidiaClass)
    ensures ParseNvidiaClass(arch) == Some(c) <==> exists n: nat :: Spells("sm", arch, n) && ClassOf(n) == Some(c)
  {
    hide Spells, ParseU16, Trim;
    assert "sm" <= "sm_";
    if ParseNvidiaClass(arch) == Some(c) {
      NumberIsSpelled("sm", arch);
    }
    if n: nat :| Spells("sm", arch, n) && ClassOf(n) == Some(c) {
      SpelledIsRead("sm", arch, n);
    }
  }

  /** How the source reads a name if it strips "sm_" before "sm". */
  function ReadEitherWay(arch: string): Option<NvidiaClass> {
    var number := if NumberAfter(arch, "sm_").Some? then NumberAfter(arch, "sm_") else NumberAfter(arch, "sm");
    if number.None? then None else ClassOf(number.value)
  }

  lemma UnderscoreIsNoNumber(arch: string)
    requires "sm_" <= Trim(arch)
    ensures NumberAfter(arch, "sm").None?
  {
    hide Trim;
    var rest := Trim(arch)[2..];
    assert rest[0] == '_' && !IsDigit(rest[0]);
  }

  /** A name with an underscore is never read. The answer is the one that trying "sm_" first
      gives exactly for the names that are no underscored spelling of a known number. */
  lemma UnderscoredExactly(arch: string)
    ensures "sm_" <= Trim(arch) ==> ParseNvidiaClass(arch).None?
    ensures ParseNvidiaClass(arch) == ReadEitherWay(arch) <==>
              !exists n: nat :: Spells("sm_", arch, n) && ClassOf(n).Some?
  {
    hide Spells, ParseU16, Trim;
    if "sm_" <= Trim(arch) {
      UnderscoreIsNoNumber(arch);
      assert "sm" <= Trim(arch);
    }
    if NumberAfter(arch, "sm_").Some? {
      NumberIsSpelled("sm_", arch);
    }
    forall n: nat | Spells("sm_", arch, n) && ClassOf(n).Some?
      ensures NumberAfter(arch, "sm_") == Some(n) && "sm_" <= Trim(arch)
    {
      SpelledIsRead("sm_", arch, n);
    }
  }

  /** A plain number after "sm" is read, and after "sm_" it is not. */
  lemma PlainNames(n: nat)
    ensures ParseNvidiaClass("sm" + NatText(n)) == ClassOf(n) && ParseNvidiaClass("sm_" + NatText(n)).None?
  {
    hide Trim, ParseU16, NumberOf, NatText, Digits;
    NatTextReads(n);
    var (name, underscored) := ("sm" + NatText(n), "sm_" + NatText(n));
    assert Spelled("sm", name, n, "", "", NatText(n), "");
    SpelledIsRead("sm", name, n);
    assert Spelled("sm_", underscored, n, "", "", NatText(n), "");
    SpelledIsRead("sm_", underscored, n);
    UnderscoredExactly(underscored);
  }

  /** For instance "sm_90". */
  lemma UnderscoredHopper()
    ensures ParseNvidiaClass("sm90") == Some(Hopper) && ParseNvidiaClass("sm_90").None?
  {
    hide ParseNvidiaClass;
    PlainNames(90);
    assert NatText(9) == "9" && NatText(90) == "90";
    assert "sm" + NatText(90) == "sm90" && "sm_" + NatText(90) == "sm_90";
  }

  // ---------------------------------------------------------------------------
  // Detection

  /** The name detection gives a device that reports this compute capability. */
  function DetectedName(value: string): string {
    var digits := Filter(value, IsDigit);
    if digits == [] then Trim(value) else "sm" + digits
  }

  /** Detection and the parser agree: a device is recognized by the digits of its capability. */
  lemma DetectedIsRead(value: string)
    ensures var digits := Filter(value, IsDigit);
            && Digits(digits)
            && ParseNvidiaClass(DetectedName(value)) == if digits == [] then None else ClassOf(NumberOf(digits))
  {
    hide Spells, Trim, Filter;
    var (digits, name) := (Filter(value, IsDigit), DetectedName(value));
    assert forall i :: 0 <= i < |digits| ==> digits[i] in digits;
    if digits == [] {
      if ParseNvidiaClass(name).Some? {
        NoDigitsIsNoNumber(value);
        assert false;
      }
    } else {
      assert Spelled("sm", name, NumberOf(digits), "", "", digits, "");
      SpelledIsRead("sm", name, NumberOf(digits));
    }
  }

  lemma NoDigitsIsNoNumber(value: string)
    requires forall i :: 0 <= i < |value| ==> !IsDigit(value[i])
    ensures ParseNvidiaClass(Trim(value)).None?
  {
    hide Spells, Trim;
    if ParseNvidiaClass(Trim(value)).Some? {
      RecognizedExactly(Trim(value), ParseNvidiaClass(Trim(value)).value);
      var n: nat :| Spells("sm", Trim(value), n);
      var before, after := TrimSplits(value);
      NumberHasDigit(value, before, Trim(value), after, n);
      assert false;
    }
  }

  lemma NumberHasDigit(value: string, first: string, arch: string, last: string, n: nat)
    requires Spells("sm", arch, n) && value == first + arch + last
    ensures exists i :: 0 <= i < |value| && IsDigit(value[i])
  {
    var before, plus, digits, after :| Spelled("sm", arch, n, before, plus, digits, after);
    assert arch[|before| + 2 + |plus|] == digits[0];
    assert value[|first| + |before| + 2 + |plus|] == digits[0];
  }

  /** A device of capability `major.minor` is named by ten times the one and the other. */
  lemma CapabilityIsRead(major: nat, minor: nat)
    requires minor < 10
    ensures ParseNvidiaClass(DetectedName(NatText(major) + "." + NatText(minor))) == ClassOf(10 * major + minor)
  {
    hide ParseNvidiaClass, DetectedName, ClassOf, Filter, NatText;
    var (a, b) := (NatText(major), NatText(minor));
    NatTextReads(major);
    NatTextReads(minor);
    DetectedIsRead(a + "." + b);
    FilterAppend(a + ".", b, IsDigit);
    FilterAppend(a, ".", IsDigit);
    KeepEvery(a, IsDigit);
    KeepEvery(b, IsDigit);
    FilterNone(".", IsDigit);
    OneDigit(minor);
    assert Filter(a + "." + b, IsDigit) == a + b;
    assert (a + b)[..|a + b| - 1] == a && (a + b)[|a + b| - 1] == b[0];
  }

  lemma OneDigit(n: nat)
    requires n < 10
    ensures |NatText(n)| == 1 && NatText(n)[0] as int == '0' as int + n
  {
  }

  // ---------------------------------------------------------------------------
  // The runtime contract

  predicate Supported(arch: string, supports: NvidiaClass -> bool) {
    var c := ParseNvidiaClass(arch);
    c.Some? && supports(c.value)
  }

  predicate AnyArch(arches: seq<string>, supports: NvidiaClass -> bool) {
    exists a | a in arches :: Supported(a, supports)
  }

  datatype RuntimeContract = RuntimeContract(
    profile: string, targetDevice: string, families: seq<BackendFamily>, tensorParallelism: u16, pciBusOrder: bool)

  /** FlashInfer first where it is prebuilt, then Triton, then what the architectures allow. */
  function CudaFamilies(arches: seq<string>, prebuilt: bool): seq<BackendFamily> {
    (if prebuilt then [FlashInfer] else []) + [Triton]
    + (if AnyArch(arches, SupportsGraphs) then [CudaGraphs] else [])
    + (if AnyArch(arches, SupportsTma) then [AotInductor] else [])
  }

  function ContractFor(vendor: AcceleratorVendor, arches: seq<string>, devices: u16, prebuilt: bool): RuntimeContract {
    match vendor
    case Nvidia =>
      RuntimeContract("cuda", "cuda", CudaFamilies(arches, prebuilt), if devices >= 2 then 2 else 1, true)
    case Amd => RuntimeContract("rocm-wsl", "rocm", [Triton], 1, false)
    case UnknownVendor => RuntimeContract("python", "cpu", [], 1, false)
  }

  function Preference(f: BackendFamily): nat {
    match f
    case FlashInfer => 0
    case Triton => 1
    case CudaGraphs => 2
    case AotInductor => 3
  }

  predicate PreferenceLe(a: BackendFamily, b: BackendFamily) { Preference(a) <= Preference(b) }

  predicate PreferenceLt(a: BackendFamily, b: BackendFamily) { Preference(a) < Preference(b) }

  /** Sorted by family and rid of repetitions, and then sorted by preference. */
  lemma PreferenceOrders(families: seq<BackendFamily>)
    requires Sorted(families, PreferenceLt)
    ensures Sort(SortDedup(families, FamilyLe), PreferenceLe) == families
  {
    hide Sort, SortDedup;
    var once := SortDedup(families, FamilyLe);
    FamilyOrder();
    SortDedupMembers(families, FamilyLe);
    var ordered := Sort(once, PreferenceLe);
    SortSorts(once, PreferenceLe);
    SortPermutes(once, PreferenceLe);
    PermutedDistinct(once, ordered, Preference);
    assert Sorted(ordered, PreferenceLt);
    forall f ensures f in Elements(ordered) <==> f in Elements(families) {
      assert f in once <==> f in Elements(once);
    }
    ChainUnique(ordered, families, PreferenceLt);
  }

  /** The source starts from Triton and inserts and appends the others. */
  method PreferFamilies(arches: seq<string>, prebuilt: bool) returns (families: seq<BackendFamily>)
    ensures families == CudaFamilies(arches, prebuilt)
  {
    hide AnyArch, Sort, SortDedup;
    families := [Triton];
    if prebuilt {
      families := [FlashInfer] + families;
    }
    if AnyArch(arches, SupportsGraphs) {
      families := families + [CudaGraphs];
    }
    if AnyArch(arches, SupportsTma) {
      families := families + [AotInductor];
    }
    PreferenceOrders(families);
    families := Sort(SortDedup(families, FamilyLe), PreferenceLe);
  }
}
