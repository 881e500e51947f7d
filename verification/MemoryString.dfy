/** Reading the memory size out of a resource string, and the limits printed into the launch command. */
module MemoryString {
  import opened Types
  import opened Text
  import opened ResourcePlans

  const INT32_MAX := 0x7fff_ffff

  /** Result of std::stoi: a number, std::invalid_argument, or std::out_of_range. */
  datatype Stoi = Number(n: int) | InvalidArgument | OutOfRange

  predicate IsDigit(c: char) {
    '0' <= c <= '9'
  }

  predicate IsSpace(c: char) {
    c == ' ' || (9 as char <= c <= 13 as char)
  }

  predicate AllDigits(s: string) {
    forall c | c in s :: IsDigit(c)
  }

  function DigitValue(c: char): nat
    requires IsDigit(c)
  {
    c as nat - '0' as nat
  }

  function DecimalValue(s: string): nat
    requires AllDigits(s)
  {
    if s == "" then 0
    else
      assert forall c | c in s[..|s| - 1] :: c in s;
      DecimalValue(s[..|s| - 1]) * 10 + DigitValue(s[|s| - 1])
  }

  /** The longest prefix of digits. */
  function DigitPrefix(s: string): (r: string)
    ensures r <= s && AllDigits(r)
    ensures |r| < |s| ==> !IsDigit(s[|r|])
  {
    if s == "" || !IsDigit(s[0]) then "" else [s[0]] + DigitPrefix(s[1..])
  }

  function SkipSpaces(s: string): string {
    if s != "" && IsSpace(s[0]) then SkipSpaces(s[1..]) else s
  }

  function StringToInt(s: string): Stoi {
    var t := SkipSpaces(s);
    var negative := t != "" && t[0] == '-';
    var digits := DigitPrefix(if t != "" && (t[0] == '-' || t[0] == '+') then t[1..] else t);
    if digits == "" then InvalidArgument
    else
      var v: int := DecimalValue(digits);
      var n := if negative then -v else v;
      if -INT32_MAX - 1 <= n <= INT32_MAX then Number(n) else OutOfRange
  }

  /** A memory size in MB; std::out_of_range is not caught and leaves the function as an exception. */
  datatype MemoryMb = Mb(n: int) | Uncaught

  /** memMbFromResourceString */
  function MemMbFromResourceString(resources: string): MemoryMb {
    var memIdx := Find(resources, "mem");
    if memIdx == -1 then Mb(-1)
    else
      var memStart := resources[memIdx..];
      var semicolon := Find(memStart, ";");
      var memEnd := if semicolon == -1 then |memStart| - 1 else semicolon;
      var mem := memStart[..memEnd];
      match StringToInt(mem[Find(mem, ":") + 1..])
      case Number(n) => Mb(n)
      case InvalidArgument => Mb(-1)
      case OutOfRange => Uncaught
  }

  /** Decimal notation. */
  function Decimal(n: nat): (s: string)
    ensures s != "" && AllDigits(s)
  {
    if n < 10 then ['0' + n as char] else Decimal(n / 10) + ['0' + (n % 10) as char]
  }

  lemma {:induction false} DecimalRoundTrip(n: nat)
    ensures DecimalValue(Decimal(n)) == n
  {
    if n < 10 {
      assert Decimal(n)[..0] == "";
    } else {
      DecimalRoundTrip(n / 10);
      assert Decimal(n)[..|Decimal(n)| - 1] == Decimal(n / 10);
    }
  }

  lemma {:induction false} DigitPrefixWhole(s: string)
    requires AllDigits(s)
    ensures DigitPrefix(s) == s
  {
    if s != "" {
      assert s[0] in s;
      assert forall c | c in s[1..] :: c in s;
      DigitPrefixWhole(s[1..]);
      assert s == [s[0]] + s[1..];
    }
  }

  lemma StringToIntOfDigits(s: string)
    requires AllDigits(s) && s != ""
    ensures StringToInt(s) == if DecimalValue(s) <= INT32_MAX then Number(DecimalValue(s)) else OutOfRange
  {
    hide DecimalValue, DigitPrefix;
    assert s[0] in s;
    assert SkipSpaces(s) == s;
    DigitPrefixWhole(s);
  }

  lemma NothingToConvert()
    ensures StringToInt("") == InvalidArgument
  {
  }

  /** A prefix after which a "mem" entry is the first one. */
  predicate EntriesWithoutMem(prefix: string) {
    Find(prefix, "mem") == -1 && (prefix == "" || prefix[|prefix| - 1] == ';')
  }

  lemma FirstIsAt(s: string, pat: string, k: nat)
    requires OccursAt(s, pat, k)
    requires forall i | 0 <= i < k :: !OccursAt(s, pat, i)
    ensures Find(s, pat) == k
  {
  }

  lemma MemFound(prefix: string, rest: string)
    requires EntriesWithoutMem(prefix)
    ensures Find(prefix + "mem:" + rest, "mem") == |prefix|
  {
    var s := prefix + "mem:" + rest;
    var k := |prefix|;
    assert s[k..k + 3] == "mem";
    forall i | 0 <= i < k
      ensures !OccursAt(s, "mem", i)
    {
      if i + 3 <= k {
        assert s[i..i + 3] == prefix[i..i + 3];
        assert !OccursAt(prefix, "mem", i);
      } else {
        assert ';' !in "mem";
        assert s[i..i + 3][k - 1 - i] == s[k - 1] == ';';
      }
    }
    FirstIsAt(s, "mem", k);
  }

  lemma FindInEntry(entry: string, c: char, rest: string)
    requires c !in entry
    ensures Find(entry + [c] + rest, [c]) == |entry|
    ensures Find(entry, [c]) == -1
  {
    var s := entry + [c] + rest;
    assert s[|entry|..|entry| + 1] == [c];
    forall i | 0 <= i < |entry|
      ensures !OccursAt(s, [c], i)
    {
      assert s[i..i + 1] == [entry[i]];
    }
    FirstIsAt(s, [c], |entry|);
    forall i | 0 <= i < |entry|
      ensures !OccursAt(entry, [c], i)
    {
      assert entry[i..i + 1] == [entry[i]];
    }
  }

  /** The value after "mem:" is converted as it stands. */
  lemma EntryValue(value: string)
    ensures var mem := "mem:" + value; mem[Find(mem, ":") + 1..] == value
  {
    var mem := "mem:" + value;
    assert mem == "mem" + [':'] + value;
    FindInEntry("mem", ':', value);
    assert Find(mem, ":") == 3;
  }

  lemma DigitsHaveNo(s: string, c: char)
    requires AllDigits(s) && !IsDigit(c)
    ensures c !in s
  {
  }

  /**
   * Memory-string round trip: a "mem" entry that is terminated by ";" is read back exactly, as long as it fits
   * an int32; a larger one escapes as an exception.
   */
  lemma MemRoundTrip(prefix: string, n: nat, suffix: string)
    requires EntriesWithoutMem(prefix)
    ensures MemMbFromResourceString(prefix + "mem:" + Decimal(n) + ";" + suffix)
         == if n <= INT32_MAX then Mb(n) else Uncaught
  {
    hide Decimal, DecimalValue, StringToInt, Find;
    DigitsHaveNo(Decimal(n), ';');
    EntryRead(prefix, Decimal(n), suffix);
    DecimalRoundTrip(n);
    StringToIntOfDigits(Decimal(n));
  }

  lemma {:induction false} DigitPrefixOf(digits: string, rest: string)
    requires AllDigits(digits) && (rest == "" || !IsDigit(rest[0]))
    ensures DigitPrefix(digits + rest) == digits
  {
    if digits == "" {
      assert digits + rest == rest;
    } else {
      assert digits[0] in digits;
      assert forall c | c in digits[1..] :: c in digits;
      DigitPrefixOf(digits[1..], rest);
      assert (digits + rest)[1..] == digits[1..] + rest;
      assert digits == [digits[0]] + digits[1..];
    }
  }

  function Signed(sign: string, n: int): int {
    if sign == "-" then -n else n
  }

  predicate AllSpaces(s: string) {
    forall c | c in s :: c == ' ' || c == '\t' || c == '\n' || c == '\r' || c == 11 as char || c == 12 as char
  }

  lemma {:induction false} SpacesSkipped(spaces: string, s: string)
    requires AllSpaces(spaces) && s != "" && !IsSpace(s[0])
    ensures SkipSpaces(spaces + s) == s
  {
    if spaces == "" {
      assert spaces + s == s;
    } else {
      assert spaces[0] in spaces;
      assert forall c | c in spaces[1..] :: c in spaces;
      assert (spaces + s)[1..] == spaces[1..] + s;
      SpacesSkipped(spaces[1..], s);
    }
  }

  /** std::stoi skips leading white space, takes an optional sign and the digits after it, and ignores what follows. */
  lemma SignedToInt(spaces: string, sign: string, digits: string, rest: string)
    requires AllSpaces(spaces) && sign in {"", "-", "+"}
    requires AllDigits(digits) && digits != "" && (rest == "" || !IsDigit(rest[0]))
    ensures var v := Signed(sign, DecimalValue(digits));
            StringToInt(spaces + (sign + digits + rest)) == if -INT32_MAX - 1 <= v <= INT32_MAX then Number(v) else OutOfRange
  {
    hide DecimalValue, DigitPrefix, SkipSpaces;
    var s := sign + digits + rest;
    assert digits[0] in digits;
    SpacesSkipped(spaces, s);
    DigitPrefixOf(digits, rest);
    assert (if sign == "" then s else s[1..]) == digits + rest;
  }

  /**
   * What is read from a terminated entry: its number with its sign, whatever white space precedes it and whatever
   * follows the digits, so that "512.9" and "512MB" read as 512.
   */
  lemma MemEntryRead(prefix: string, spaces: string, sign: string, n: nat, rest: string, suffix: string)
    requires EntriesWithoutMem(prefix) && AllSpaces(spaces) && sign in {"", "-", "+"}
    requires ';' !in rest && (rest == "" || !IsDigit(rest[0]))
    ensures var v := Signed(sign, n);
            MemMbFromResourceString(prefix + "mem:" + (spaces + (sign + Decimal(n) + rest)) + ";" + suffix)
            == if -INT32_MAX - 1 <= v <= INT32_MAX then Mb(v) else Uncaught
  {
    hide DecimalValue, StringToInt, Find, Decimal;
    var value := spaces + (sign + Decimal(n) + rest);
    DigitsHaveNo(Decimal(n), ';');
    assert ';' !in spaces && ';' !in sign;
    EntryRead(prefix, value, suffix);
    DecimalRoundTrip(n);
    SignedToInt(spaces, sign, Decimal(n), rest);
  }

  /** A terminated entry is converted as it stands. */
  lemma EntryRead(prefix: string, value: string, suffix: string)
    requires EntriesWithoutMem(prefix) && ';' !in value
    ensures MemMbFromResourceString(prefix + "mem:" + value + ";" + suffix)
         == match StringToInt(value) case Number(v) => Mb(v) case InvalidArgument => Mb(-1) case OutOfRange => Uncaught
  {
    hide StringToInt, Find;
    var rest := value + ";" + suffix;
    var s := prefix + "mem:" + rest;
    assert s == prefix + "mem:" + value + ";" + suffix;
    MemFound(prefix, rest);
    var entry := "mem:" + value;
    var memStart := s[|prefix|..];
    assert memStart == entry + [';'] + suffix;
    FindInEntry(entry, ';', suffix);
    assert memStart[..|entry|] == entry;
    EntryValue(value);
  }

  /** No "mem" entry, or one without a number, reads as -1. */
  lemma MemWithoutNumber(prefix: string, value: string, suffix: string, resources: string)
    requires EntriesWithoutMem(prefix) && ';' !in value
    requires value == "" || !(IsDigit(value[0]) || IsSpace(value[0]) || value[0] == '-' || value[0] == '+')
    ensures MemMbFromResourceString(prefix + "mem:" + value + ";" + suffix) == Mb(-1)
    ensures (forall i :: !OccursAt(resources, "mem", i)) ==> MemMbFromResourceString(resources) == Mb(-1)
  {
    hide Find;
    EntryRead(prefix, value, suffix);
    assert StringToInt(value) == InvalidArgument;
  }

  /** Without the terminating ";" the last digit is lost: n is read as n / 10, a single digit as -1. */
  lemma MemUnterminated(prefix: string, n: nat)
    requires EntriesWithoutMem(prefix)
    ensures MemMbFromResourceString(prefix + "mem:" + Decimal(n))
         == if n < 10 then Mb(-1) else if n / 10 <= INT32_MAX then Mb(n / 10) else Uncaught
  {
    hide DecimalValue, StringToInt, Find;
    var s := prefix + "mem:" + Decimal(n);
    MemFound(prefix, Decimal(n));
    var entry := "mem:" + Decimal(n);
    assert s[|prefix|..] == entry;
    DigitsHaveNo(Decimal(n), ';');
    FindInEntry(entry, ';', "");
    var shorter := if n < 10 then "" else Decimal(n / 10);
    assert entry[..|entry| - 1] == "mem:" + shorter;
    EntryValue(shorter);
    NothingToConvert();
    if n >= 10 {
      DecimalRoundTrip(n / 10);
      StringToIntOfDigits(shorter);
    }
  }

  /** A "mem" entry is read correctly exactly when a ";" follows it. */
  lemma MemReadIffTerminated(prefix: string, n: nat, terminated: bool, suffix: string)
    requires EntriesWithoutMem(prefix) && n <= INT32_MAX
    ensures MemMbFromResourceString(prefix + "mem:" + Decimal(n) + if terminated then ";" + suffix else "") == Mb(n)
            <==> terminated
  {
    hide MemMbFromResourceString, Decimal, EntriesWithoutMem;
    if terminated {
      MemRoundTrip(prefix, n, suffix);
      assert prefix + "mem:" + Decimal(n) + (";" + suffix) == prefix + "mem:" + Decimal(n) + ";" + suffix;
    } else {
      MemUnterminated(prefix, n);
      assert prefix + "mem:" + Decimal(n) + "" == prefix + "mem:" + Decimal(n);
    }
  }

  // ------------------------------------------------------------ limits in the launch command

  datatype MemoryFlags = MemoryFlags(
    registryResources: string, metadataResources: string, dataResources: string,
    apiResources: string, s3Resources: string, webconsoleResources: string,
    registryExtraRam: int, metadataExtraRam: int, s3ExtraRam: int)

  /** The resource string a service's limit is computed from. */
  function LimitSource(f: MemoryFlags, svc: Service): string
    requires svc != Prober && svc != Client
  {
    match svc
    case Registry => f.registryResources
    case Metadata => f.metadataResources
    case Data => f.dataResources
    case Api => f.apiResources
    case S3 => f.s3Resources
    case _ => f.webconsoleResources
  }

  function ExtraRam(f: MemoryFlags, svc: Service): int {
    match svc
    case Registry => f.registryExtraRam
    case Metadata => f.metadataExtraRam
    case S3 => f.s3ExtraRam
    case _ => 0
  }

  /** The QUOBYTE_MAX_MEM_* value printed into the launch command. */
  function PrintedLimit(f: MemoryFlags, svc: Service): MemoryMb
    requires svc != Prober && svc != Client
  {
    match MemMbFromResourceString(LimitSource(f, svc))
    case Mb(n) => Mb(n - ExtraRam(f, svc))
    case Uncaught => Uncaught
  }

  /** The resource string the service's task is given its memory by; S3 gets the webconsole's. */
  function RequestSource(f: MemoryFlags, svc: Service): string
    requires svc != Prober && svc != Client
  {
    if svc == S3 then f.webconsoleResources else LimitSource(f, svc)
  }

  /** A resource string that asks for n MB in a terminated "mem" entry. */
  ghost predicate AsksFor(text: string, n: nat) {
    exists prefix, suffix :: EntriesWithoutMem(prefix) && text == WithMem(prefix, n, suffix)
  }

  function WithMem(prefix: string, n: nat, suffix: string): string {
    prefix + "mem:" + Decimal(n) + ";" + suffix
  }

  lemma AskedIsRead(text: string, n: nat)
    requires AsksFor(text, n)
    ensures MemMbFromResourceString(text) == if n <= INT32_MAX then Mb(n) else Uncaught
  {
    hide MemMbFromResourceString, Decimal, EntriesWithoutMem;
    var prefix, suffix :| EntriesWithoutMem(prefix) && text == WithMem(prefix, n, suffix);
    MemRoundTrip(prefix, n, suffix);
  }

  /**
   * The printed limit against the memory the task really asks for: with n MB in the string the limit is computed
   * from and m MB in the one the task's resources are parsed from, the limit is n less the extra RAM; it stays
   * within the task's memory iff that is at most m and is not negative iff the extra RAM is at most n. Unless the
   * service is S3 the two strings are the same, so the limit is within the memory iff the extra RAM is not negative.
   */
  lemma LimitWithinRequest(f: MemoryFlags, cfg: Config, svc: Service, n: nat, m: nat)
    requires svc != Prober && svc != Client && n <= INT32_MAX && m <= INT32_MAX
    requires AsksFor(LimitSource(f, svc), n) && AsksFor(RequestSource(f, svc), m)
    requires SystemResources(cfg, svc).mem == m * MEGABYTE
    ensures PrintedLimit(f, svc) == Mb(n - ExtraRam(f, svc))
    ensures PrintedLimit(f, svc).n * MEGABYTE <= Plan(cfg, svc).mem <==> n - ExtraRam(f, svc) <= m
    ensures PrintedLimit(f, svc).n >= 0 <==> n >= ExtraRam(f, svc)
    ensures svc != S3 ==> (PrintedLimit(f, svc).n * MEGABYTE <= Plan(cfg, svc).mem <==> ExtraRam(f, svc) >= 0)
  {
    hide AsksFor, MemMbFromResourceString;
    AskedIsRead(LimitSource(f, svc), n);
    AskedIsRead(RequestSource(f, svc), m);
  }

  /** The flag string and the resources parsed from it ask for the same memory, in whole MB. */
  ghost predicate SameMemory(text: string, r: Resources) {
    exists n: nat :: n <= INT32_MAX && AsksFor(text, n) && r.mem == n * MEGABYTE
  }

  /** The flags the scheduler parses, and those the launch command reads, are the same strings. */
  ghost predicate SameFlags(f: MemoryFlags, cfg: Config) {
    && SameMemory(f.registryResources, cfg.registryResources) && SameMemory(f.metadataResources, cfg.metadataResources)
    && SameMemory(f.dataResources, cfg.dataResources) && SameMemory(f.apiResources, cfg.apiResources)
    && SameMemory(f.webconsoleResources, cfg.webconsoleResources)
  }

  /** The limit of each service but S3, flag by flag: the memory its task asks for, less the extra RAM if it has any. */
  lemma LimitsByFlags(f: MemoryFlags, cfg: Config)
    requires SameFlags(f, cfg)
    ensures forall svc | svc in {Registry, Metadata, Data, Api, Webconsole} :: PrintedLimit(f, svc).Mb?
    ensures PrintedLimit(f, Registry).n * MEGABYTE == Plan(cfg, Registry).mem - f.registryExtraRam * MEGABYTE
    ensures PrintedLimit(f, Metadata).n * MEGABYTE == Plan(cfg, Metadata).mem - f.metadataExtraRam * MEGABYTE
    ensures PrintedLimit(f, Data).n * MEGABYTE == Plan(cfg, Data).mem
    ensures PrintedLimit(f, Api).n * MEGABYTE == Plan(cfg, Api).mem
    ensures PrintedLimit(f, Webconsole).n * MEGABYTE == Plan(cfg, Webconsole).mem
  {
    hide MemMbFromResourceString, AsksFor;
    MemoryRead(f.registryResources, cfg.registryResources);
    MemoryRead(f.metadataResources, cfg.metadataResources);
    MemoryRead(f.dataResources, cfg.dataResources);
    MemoryRead(f.apiResources, cfg.apiResources);
    MemoryRead(f.webconsoleResources, cfg.webconsoleResources);
  }

  lemma MemoryRead(text: string, r: Resources)
    requires SameMemory(text, r)
    ensures MemMbFromResourceString(text).Mb? && MemMbFromResourceString(text).n * MEGABYTE == r.mem
  {
    hide MemMbFromResourceString, AsksFor;
    var n: nat :| n <= INT32_MAX && AsksFor(text, n) && r.mem == n * MEGABYTE;
    AskedIsRead(text, n);
  }

  lemma DecimalExamples()
    ensures Decimal(512) == "512" && Decimal(8192) == "8192"
  {
    assert Decimal(512) == Decimal(51) + "2" == Decimal(5) + "1" + "2";
    assert Decimal(8192) == Decimal(819) + "2" == Decimal(81) + "9" + "2" == Decimal(8) + "1" + "9" + "2";
  }

  /** Too much S3 memory in the flag prints a limit above what the task gets: 6656 MB where it asks for 512. */
  lemma S3LimitAboveRequest(f: MemoryFlags, cfg: Config)
    requires f.s3Resources == "mem:8192;disk:32" && f.s3ExtraRam == 1536
    requires f.webconsoleResources == "mem:512;disk:32" && cfg.webconsoleResources.mem == 512 * MEGABYTE
    ensures PrintedLimit(f, S3) == Mb(6656) && 6656 * MEGABYTE > Plan(cfg, S3).mem
  {
    hide MemMbFromResourceString, Decimal;
    DecimalExamples();
    assert Find("", "mem") == -1;
    MemRoundTrip("", 8192, "disk:32");
    assert f.s3Resources == "" + "mem:" + Decimal(8192) + ";" + "disk:32";
  }

  /** With the default S3 flags (mem:512, 1536 MB extra) the printed S3 limit is negative. */
  lemma DefaultS3LimitNegative(f: MemoryFlags)
    requires f.s3Resources == "cpus:1.0;mem:512;disk:32" && f.s3ExtraRam == 1536
    ensures PrintedLimit(f, S3) == Mb(-1024)
  {
    hide StringToInt, DecimalValue, MemMbFromResourceString, Find, Decimal;
    var prefix := "cpus:1.0;";
    DecimalExamples();
    forall i | 0 <= i && i + 3 <= |prefix|
      ensures !OccursAt(prefix, "mem", i)
    {
      assert prefix[i..i + 3][0] == prefix[i] != 'm';
    }
    assert EntriesWithoutMem(prefix);
    assert f.s3Resources == prefix + "mem:" + Decimal(512) + ";" + "disk:32";
    MemRoundTrip(prefix, 512, "disk:32");
  }
}
