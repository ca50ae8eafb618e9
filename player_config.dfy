/**
 * The player's configuration (player/src/config.cpp): `config.ini` is read
 * and parsed as INI, and each section/name/value triple the parser reports
 * is handed to `config_handler`, which writes one field of the
 * configuration or rejects the key. `parse_config` fails when the file
 * cannot be read or the parse reports an error, which includes a rejected
 * key.
 *
 * The INI parser is given as its output: the entries in file order and
 * whether the text was well formed. `atoi` is modelled on its C
 * definition; `strtof`, the platform and the current directory come from
 * the environment.
 */
module PlayerConfig {
  import opened Wrappers
  import opened Machine

  /** `isspace` in the C locale. */
  predicate IsSpace(c: char)
  {
    c == ' ' || c == '\t' || c == '\n' || c == '\U{B}' || c == '\U{C}' || c == '\r'
  }

  predicate IsDigit(c: char)
  {
    '0' <= c <= '9'
  }

  predicate AllDigits(s: string)
  {
    forall k :: 0 <= k < |s| ==> IsDigit(s[k])
  }

  /** The text after the leading white space. */
  function SkipSpace(s: string): (r: string)
    ensures |r| <= |s| && r == s[|s| - |r|..]
    ensures forall k :: 0 <= k < |s| - |r| ==> IsSpace(s[k])
    ensures |r| == 0 || !IsSpace(r[0])
  {
    if |s| > 0 && IsSpace(s[0]) then SkipSpace(s[1..]) else s
  }

  /** The length of the leading run of digits. */
  function DigitRun(s: string): (d: nat)
    ensures d <= |s| && AllDigits(s[..d])
    ensures d < |s| ==> !IsDigit(s[d])
  {
    if |s| > 0 && IsDigit(s[0]) then
      var d := 1 + DigitRun(s[1..]);
      assert forall k :: 1 <= k < d ==> s[..d][k] == s[1..][..d - 1][k - 1];
      d
    else 0
  }

  /** The value of a decimal numeral. */
  function DigitsValue(d: string): nat
    requires AllDigits(d)
  {
    if |d| == 0 then 0 else 10 * DigitsValue(d[..|d| - 1]) + (d[|d| - 1] as int - '0' as int)
  }

  /** The value of the leading digits, 0 when there are none. */
  function Unsigned(t: string): nat
  {
    DigitsValue(t[..DigitRun(t)])
  }

  /** `atoi`: leading white space, an optional sign, then as many digits as
      there are; no digits read as 0. */
  function Atoi(s: string): int
  {
    Signed(SkipSpace(s))
  }

  /** An optional sign, then the leading digits. */
  function Signed(t: string): int
  {
    if |t| > 0 && t[0] == '-' then -(Unsigned(t[1..]) as int)
    else if |t| > 0 && t[0] == '+' then Unsigned(t[1..])
    else Unsigned(t)
  }

  function Digit(n: nat): (c: char)
    requires n < 10
    ensures IsDigit(c) && c as int - '0' as int == n
  {
    ('0' as int + n) as char
  }

  /** The decimal numeral of `n`, without leading zeros. */
  function Decimal(n: nat): (s: string)
    ensures |s| > 0 && AllDigits(s)
    ensures |s| > 1 ==> s[0] != '0'
  {
    if n < 10 then [Digit(n)] else Decimal(n / 10) + [Digit(n % 10)]
  }

  lemma {:induction false} DigitsValueOfDecimal(n: nat)
    ensures DigitsValue(Decimal(n)) == n
    decreases n
  {
    if n >= 10 {
      var s := Decimal(n);
      assert s[..|s| - 1] == Decimal(n / 10);
      DigitsValueOfDecimal(n / 10);
    }
  }

  lemma {:induction false} SkipSpacePrefix(ws: string, t: string)
    requires forall k :: 0 <= k < |ws| ==> IsSpace(ws[k])
    requires |t| > 0 && !IsSpace(t[0])
    ensures SkipSpace(ws + t) == t
    decreases |ws|
  {
    if |ws| > 0 {
      assert (ws + t)[1..] == ws[1..] + t;
      SkipSpacePrefix(ws[1..], t);
    }
  }

  lemma {:induction false} DigitRunStops(d: string, rest: string)
    requires AllDigits(d)
    requires |rest| == 0 || !IsDigit(rest[0])
    ensures DigitRun(d + rest) == |d|
    decreases |d|
  {
    if |d| > 0 {
      assert (d + rest)[1..] == d[1..] + rest;
      DigitRunStops(d[1..], rest);
    }
  }

  lemma UnsignedReadsDecimal(n: nat, rest: string)
    requires |rest| == 0 || !IsDigit(rest[0])
    ensures Unsigned(Decimal(n) + rest) == n
  {
    DigitRunStops(Decimal(n), rest);
    DigitsValueOfDecimal(n);
    assert (Decimal(n) + rest)[..|Decimal(n)|] == Decimal(n);
  }

  /** `atoi` skips leading white space. */
  lemma AtoiSkipsSpace(ws: string, t: string)
    requires forall k :: 0 <= k < |ws| ==> IsSpace(ws[k])
    requires |t| > 0 && !IsSpace(t[0])
    ensures Atoi(ws + t) == Atoi(t) == Signed(t)
  {
    SkipSpacePrefix(ws, t);
    assert SkipSpace(t) == t;
  }

  lemma SignedReadsDecimal(sign: string, n: nat, rest: string)
    requires sign == "" || sign == "+" || sign == "-"
    requires |rest| == 0 || !IsDigit(rest[0])
    ensures Signed(sign + Decimal(n) + rest) == if sign == "-" then -(n as int) else n
  {
    UnsignedReadsDecimal(n, rest);
    SignedReadsDigits(sign, Decimal(n), rest);
  }

  /** Any digit string after a sign is read as `Unsigned`, negated for `-`. */
  lemma SignedReadsDigits(sign: string, d: string, rest: string)
    requires sign == "" || sign == "+" || sign == "-"
    requires |d| > 0 && IsDigit(d[0])
    ensures Signed(sign + d + rest) == if sign == "-" then -(Unsigned(d + rest) as int) else Unsigned(d + rest)
  {
    var num := d + rest;
    assert num[0] == d[0];
    if sign == "" {
      assert sign + d + rest == num;
    } else {
      assert sign + d + rest == [sign[0]] + num;
      SignedAfterSign(sign[0], num);
    }
  }

  /** A leading sign is dropped before the digits are read, and `-` negates them. */
  lemma SignedAfterSign(c: char, num: string)
    requires c == '+' || c == '-'
    ensures Signed([c] + num) == if c == '-' then -(Unsigned(num) as int) else Unsigned(num)
  {
    assert ([c] + num)[1..] == num;
  }

  /** `atoi` reads back a numeral written after white space and a sign,
      whatever non-digit text follows it. */
  lemma AtoiReadsDecimal(ws: string, sign: string, n: nat, rest: string)
    requires forall k :: 0 <= k < |ws| ==> IsSpace(ws[k])
    requires sign == "" || sign == "+" || sign == "-"
    requires |rest| == 0 || !IsDigit(rest[0])
    ensures Atoi(ws + sign + Decimal(n) + rest) == if sign == "-" then -(n as int) else n
  {
    var d := Decimal(n);
    var t := sign + d + rest;
    assert ws + sign + d + rest == ws + t;
    if sign == "" {
      assert t[0] == d[0] && IsDigit(d[0]);
    } else {
      assert t[0] == sign[0];
    }
    AtoiSkipsSpace(ws, t);
    SignedReadsDecimal(sign, n, rest);
  }

  datatype WindowAttrs = WindowAttrs(name: string, monitorIndex: int, windowed: bool, cursor: bool,
                                     vsync: bool, msaa: bool, fpsCap: (bool, u8))
  datatype Resolution = Resolution(width: int, height: int)
  datatype ClearColor = ClearColor(r: real, g: real, b: real, a: real)

  /** `config_data`: window attributes, resolution, clear colour and the
      first module's file. */
  datatype Config = Config(wattrs: WindowAttrs, wr: Resolution, ccl: ClearColor, moduleFile: string)

  /** The value-initialised `config_data cd{}`. */
  const DEFAULT: Config :=
    Config(WindowAttrs("", 0, false, false, false, false, (false, 0)), Resolution(0, 0),
           ClearColor(0.0, 0.0, 0.0, 0.0), "")

  /** The platform, the current directory and `strtof`. */
  datatype Env = Env(windows: bool, cwd: string, strtof: string -> real)

  /** The module file named by `first_module`: the value with `.dll` on
      Windows, the current directory, `/`, the value and `.so`
      elsewhere. */
  function ModuleFileName(env: Env, value: string): (f: string)
  {
    if env.windows then value + ".dll" else env.cwd + "/" + value + ".so"
  }

  /** The `first_module` value a module file name was made from. */
  function ModuleStem(env: Env, f: string): (r: Option<string>)
  {
    if env.windows then
      if |f| >= 4 && f[|f| - 4..] == ".dll" then Some(f[..|f| - 4]) else None
    else
      var p := env.cwd + "/";
      if |f| >= |p| + 3 && f[..|p|] == p && f[|f| - 3..] == ".so" then Some(f[|p|..|f| - 3]) else None
  }

  /** The file name determines the value: the stem of a derived name is
      the value, and a name with a stem is derived from it. */
  lemma ModuleStemInvertsFileName(env: Env, value: string, f: string)
    ensures ModuleStem(env, ModuleFileName(env, value)) == Some(value)
    ensures ModuleStem(env, f).Some? ==> ModuleFileName(env, ModuleStem(env, f).value) == f
  {
    var g := ModuleFileName(env, value);
    if env.windows {
      assert g[..|g| - 4] == value && g[|g| - 4..] == ".dll";
      if ModuleStem(env, f).Some? {
        assert f == f[..|f| - 4] + f[|f| - 4..];
      }
    } else {
      var p := env.cwd + "/";
      assert g == p + value + ".so";
      assert g[..|p|] == p && g[|p|..|g| - 3] == value && g[|g| - 3..] == ".so";
      if ModuleStem(env, f).Some? {
        assert f == f[..|p|] + f[|p|..|f| - 3] + f[|f| - 3..];
      }
    }
  }

  /** The fields of the configuration, each addressed by one key. */
  datatype Field =
    | Name | MonitorIndex | Windowed | Cursor | Width | Height | VSync | Msaa | CapFps | FpsCapValue
    | ClearR | ClearG | ClearB | ClearA | FirstModule

  datatype Value = Text(s: string) | Int(i: int) | Flag(b: bool) | Byte(u: u8) | Real(x: real)

  function Get(cd: Config, f: Field): Value
  {
    match f
    case Name => Text(cd.wattrs.name)
    case MonitorIndex => Int(cd.wattrs.monitorIndex)
    case Windowed => Flag(cd.wattrs.windowed)
    case Cursor => Flag(cd.wattrs.cursor)
    case Width => Int(cd.wr.width)
    case Height => Int(cd.wr.height)
    case VSync => Flag(cd.wattrs.vsync)
    case Msaa => Flag(cd.wattrs.msaa)
    case CapFps => Flag(cd.wattrs.fpsCap.0)
    case FpsCapValue => Byte(cd.wattrs.fpsCap.1)
    case ClearR => Real(cd.ccl.r)
    case ClearG => Real(cd.ccl.g)
    case ClearB => Real(cd.ccl.b)
    case ClearA => Real(cd.ccl.a)
    case FirstModule => Text(cd.moduleFile)
  }

  /** The field a section/name pair addresses, in the handler's order of
      tests. */
  function FieldOf(section: string, name: string): (r: Option<Field>)
  {
    if section == "window" && name == "name" then Some(Name)
    else if section == "window" && name == "monitor_index" then Some(MonitorIndex)
    else if section == "window" && name == "windowed" then Some(Windowed)
    else if section == "window" && name == "cursor" then Some(Cursor)
    else if section == "resolution" && name == "width" then Some(Width)
    else if section == "resolution" && name == "height" then Some(Height)
    else if section == "renderer" && name == "VSync" then Some(VSync)
    else if section == "renderer" && name == "MSAA" then Some(Msaa)
    else if section == "renderer" && name == "cap_FPS" then Some(CapFps)
    else if section == "renderer" && name == "FPS_cap_value" then Some(FpsCapValue)
    else if section == "clear_color" && name == "r" then Some(ClearR)
    else if section == "clear_color" && name == "g" then Some(ClearG)
    else if section == "clear_color" && name == "b" then Some(ClearB)
    else if section == "clear_color" && name == "a" then Some(ClearA)
    else if section == "modules" && name == "first_module" then Some(FirstModule)
    else None
  }

  /** The section and name of each field's key. */
  function KeyOf(f: Field): (string, string)
  {
    match f
    case Name => ("window", "name")
    case MonitorIndex => ("window", "monitor_index")
    case Windowed => ("window", "windowed")
    case Cursor => ("window", "cursor")
    case Width => ("resolution", "width")
    case Height => ("resolution", "height")
    case VSync => ("renderer", "VSync")
    case Msaa => ("renderer", "MSAA")
    case CapFps => ("renderer", "cap_FPS")
    case FpsCapValue => ("renderer", "FPS_cap_value")
    case ClearR => ("clear_color", "r")
    case ClearG => ("clear_color", "g")
    case ClearB => ("clear_color", "b")
    case ClearA => ("clear_color", "a")
    case FirstModule => ("modules", "first_module")
  }

  /** Every field has exactly one key: the key of a field addresses it,
      and a pair that addresses a field is its key. */
  lemma KeysAddressOneFieldEach(f: Field, section: string, name: string)
    ensures FieldOf(KeyOf(f).0, KeyOf(f).1) == Some(f)
    ensures FieldOf(section, name) == Some(f) ==> KeyOf(f) == (section, name)
  {
    KeyAddressesField(f);
    AddressedFieldHasKey(f, section, name);
  }

  lemma KeyAddressesField(f: Field)
    ensures FieldOf(KeyOf(f).0, KeyOf(f).1) == Some(f)
  {
    if f.Name? || f.MonitorIndex? || f.Windowed? || f.Cursor? || f.Width? || f.Height? || f.VSync? {
      KeyAddressesEarlyField(f);
    } else {
      KeyAddressesLateField(f);
    }
  }

  /** The window, resolution and VSync keys. */
  lemma KeyAddressesEarlyField(f: Field)
    requires f.Name? || f.MonitorIndex? || f.Windowed? || f.Cursor? || f.Width? || f.Height? || f.VSync?
    ensures FieldOf(KeyOf(f).0, KeyOf(f).1) == Some(f)
  {
    match f
    case Name =>
    case MonitorIndex =>
    case Windowed =>
    case Cursor =>
    case Width =>
    case Height =>
    case VSync =>
  }

  /** The remaining renderer keys, the clear colour and the module. */
  lemma KeyAddressesLateField(f: Field)
    requires f.Msaa? || f.CapFps? || f.FpsCapValue? || f.ClearR? || f.ClearG? || f.ClearB? || f.ClearA? || f.FirstModule?
    ensures FieldOf(KeyOf(f).0, KeyOf(f).1) == Some(f)
  {
    match f
    case Msaa =>
    case CapFps =>
    case FpsCapValue =>
    case ClearR =>
    case ClearG =>
    case ClearB =>
    case ClearA =>
    case FirstModule =>
  }

  lemma AddressedFieldHasKey(f: Field, section: string, name: string)
    ensures FieldOf(section, name) == Some(f) ==> KeyOf(f) == (section, name)
  {
    if FieldOf(section, name) == Some(f) {
      match f
      case Name =>
      case MonitorIndex =>
      case Windowed =>
      case Cursor =>
      case Width =>
      case Height =>
      case VSync =>
      case Msaa =>
      case CapFps =>
      case FpsCapValue =>
      case ClearR =>
      case ClearG =>
      case ClearB =>
      case ClearA =>
      case FirstModule =>
    }
  }

  /** Writing a field's value, converted as its key says. */
  function Put(cd: Config, f: Field, value: string, env: Env): (r: Config)
  {
    var w := cd.wattrs;
    match f
    case Name => cd.(wattrs := w.(name := value))
    case MonitorIndex => cd.(wattrs := w.(monitorIndex := Atoi(value)))
    case Windowed => cd.(wattrs := w.(windowed := Atoi(value) != 0))
    case Cursor => cd.(wattrs := w.(cursor := Atoi(value) != 0))
    case Width => cd.(wr := cd.wr.(width := Atoi(value)))
    case Height => cd.(wr := cd.wr.(height := Atoi(value)))
    case VSync => cd.(wattrs := w.(vsync := Atoi(value) != 0))
    case Msaa => cd.(wattrs := w.(msaa := Atoi(value) != 0))
    case CapFps => cd.(wattrs := w.(fpsCap := (Atoi(value) != 0, w.fpsCap.1)))
    case FpsCapValue => cd.(wattrs := w.(fpsCap := (w.fpsCap.0, Wrap8(Atoi(value)))))
    case ClearR => cd.(ccl := cd.ccl.(r := env.strtof(value)))
    case ClearG => cd.(ccl := cd.ccl.(g := env.strtof(value)))
    case ClearB => cd.(ccl := cd.ccl.(b := env.strtof(value)))
    case ClearA => cd.(ccl := cd.ccl.(a := env.strtof(value)))
    case FirstModule => cd.(moduleFile := ModuleFileName(env, value))
  }

  /** What a key's value becomes: text as given, integers by `atoi`,
      flags true exactly when `atoi` is nonzero, the frame cap `atoi`
      narrowed to eight bits, colours by `strtof`, the module a file
      name. */
  function Written(f: Field, value: string, env: Env): Value
  {
    match f
    case Name => Text(value)
    case MonitorIndex => Int(Atoi(value))
    case Width => Int(Atoi(value))
    case Height => Int(Atoi(value))
    case Windowed => Flag(Atoi(value) != 0)
    case Cursor => Flag(Atoi(value) != 0)
    case VSync => Flag(Atoi(value) != 0)
    case Msaa => Flag(Atoi(value) != 0)
    case CapFps => Flag(Atoi(value) != 0)
    case FpsCapValue => Byte(Wrap8(Atoi(value)))
    case ClearR => Real(env.strtof(value))
    case ClearG => Real(env.strtof(value))
    case ClearB => Real(env.strtof(value))
    case ClearA => Real(env.strtof(value))
    case FirstModule => Text(ModuleFileName(env, value))
  }

  /** `config_handler`: a recognised section/name pair writes its field
      and reports 1; any other pair reports 0 and writes nothing. */
  function Handler(cd: Config, section: string, name: string, value: string, env: Env): (r: (int, Config))
  {
    match FieldOf(section, name)
    case None => (0, cd)
    case Some(f) => (1, Put(cd, f, value, env))
  }

  /** Writing a field sets its value as the table says and leaves every
      other field as it was. */
  lemma PutWritesOnlyItsField(cd: Config, f: Field, value: string, env: Env, g: Field)
    ensures Get(Put(cd, f, value, env), g) == if g == f then Written(f, value, env) else Get(cd, g)
  {
  }

  /** The handler accepts exactly the known keys, writes the value of the
      key's field as the table says, and leaves every other field as it
      was. */
  lemma HandlerWritesOnlyItsField(cd: Config, section: string, name: string, value: string, env: Env)
    ensures var (status, cd2) := Handler(cd, section, name, value, env);
      && (status == 1 <==> FieldOf(section, name).Some?)
      && (status == 0 <==> FieldOf(section, name).None?)
      && forall g :: Get(cd2, g) ==
           if FieldOf(section, name) == Some(g) then Written(g, value, env) else Get(cd, g)
  {
    if FieldOf(section, name).Some? {
      forall g
        ensures Get(Handler(cd, section, name, value, env).1, g) ==
          if FieldOf(section, name) == Some(g) then Written(g, value, env) else Get(cd, g)
      {
        PutWritesOnlyItsField(cd, FieldOf(section, name).value, value, env, g);
      }
    }
  }

  /** The frame cap is `atoi` reduced modulo 256. */
  lemma FpsCapIsNarrowed(cd: Config, value: string, env: Env)
    ensures Handler(cd, "renderer", "FPS_cap_value", value, env).1.wattrs.fpsCap.1 == Atoi(value) % 256
    ensures Handler(cd, "renderer", "FPS_cap_value", value, env).1.wattrs.fpsCap.0 == cd.wattrs.fpsCap.0
  {
    assert FieldOf("renderer", "FPS_cap_value") == Some(FpsCapValue);
    assert Handler(cd, "renderer", "FPS_cap_value", value, env).1 == Put(cd, FpsCapValue, value, env);
  }

  /** An INI entry as the parser reports it. */
  datatype Entry = Entry(section: string, name: string, value: string)

  /** The parser's view of `config.ini`: its entries in order, and whether
      the text was well formed. */
  datatype Ini = Ini(entries: seq<Entry>, wellFormed: bool)

  datatype ConfigError = ConfigFileLoad | ConfigFileParse

  predicate Known(e: Entry)
  {
    FieldOf(e.section, e.name).Some?
  }

  /** Every entry handed to the handler in order; `true` when none was
      rejected. The parser goes on after a rejected entry. */
  function ApplyAll(cd: Config, entries: seq<Entry>, env: Env): (r: (bool, Config))
    decreases |entries|
  {
    if |entries| == 0 then (true, cd)
    else
      var (ok, cd1) := ApplyAll(cd, entries[..|entries| - 1], env);
      var e := entries[|entries| - 1];
      var (status, cd2) := Handler(cd1, e.section, e.name, e.value, env);
      (ok && status != 0, cd2)
  }

  /** parse_config: a missing file is a load error; a malformed file or a
      rejected key a parse error; otherwise the configuration built from
      the defaults. */
  function ParseConfig(file: Option<Ini>, env: Env): (r: Result<Config, ConfigError>)
  {
    if file.None? then Err(ConfigFileLoad)
    else
      var (ok, cd) := ApplyAll(DEFAULT, file.value.entries, env);
      if ok && file.value.wellFormed then Ok(cd) else Err(ConfigFileParse)
  }

  /** The value of the last entry that sets `f`. */
  function LastValue(entries: seq<Entry>, f: Field): (r: Option<string>)
    decreases |entries|
  {
    if |entries| == 0 then None
    else
      var e := entries[|entries| - 1];
      if FieldOf(e.section, e.name) == Some(f) then Some(e.value)
      else LastValue(entries[..|entries| - 1], f)
  }

  predicate AllKnown(entries: seq<Entry>)
  {
    forall k :: 0 <= k < |entries| ==> Known(entries[k])
  }

  lemma AllKnownSnoc(entries: seq<Entry>)
    requires |entries| > 0
    ensures AllKnown(entries) <==>
      AllKnown(entries[..|entries| - 1]) && Known(entries[|entries| - 1])
  {
    var init := entries[..|entries| - 1];
    assert forall k :: 0 <= k < |init| ==> init[k] == entries[k];
  }

  lemma HandlerAcceptsKnown(cd: Config, e: Entry, env: Env)
    ensures Handler(cd, e.section, e.name, e.value, env).0 != 0 <==> Known(e)
  {
    HandlerWritesOnlyItsField(cd, e.section, e.name, e.value, env);
  }

  lemma {:induction false} ApplyAllAcceptsKnownKeys(cd: Config, entries: seq<Entry>, env: Env)
    ensures ApplyAll(cd, entries, env).0 <==> AllKnown(entries)
    decreases |entries|
  {
    if |entries| > 0 {
      var init := entries[..|entries| - 1];
      ApplyAllAcceptsKnownKeys(cd, init, env);
      HandlerAcceptsKnown(ApplyAll(cd, init, env).1, entries[|entries| - 1], env);
      AllKnownSnoc(entries);
    }
  }

  /** The last entry for a field decides it; a field no entry sets keeps
      its value. */
  lemma {:induction false} ApplyAllLastEntryWins(cd: Config, entries: seq<Entry>, env: Env, f: Field)
    ensures Get(ApplyAll(cd, entries, env).1, f) ==
      match LastValue(entries, f)
      case Some(v) => Written(f, v, env)
      case None => Get(cd, f)
    decreases |entries|
  {
    if |entries| > 0 {
      var init := entries[..|entries| - 1];
      ApplyAllLastEntryWins(cd, init, env, f);
      var e := entries[|entries| - 1];
      HandlerWritesOnlyItsField(ApplyAll(cd, init, env).1, e.section, e.name, e.value, env);
    }
  }

  /** parse_config fails to load exactly without a file, fails to parse
      exactly when the text is malformed or holds an unknown key, and
      otherwise gives each field the value of its last entry, or its
      default; in particular the module file is derived from the last
      `first_module`, and is empty without one. */
  lemma ParseConfigOutcome(file: Option<Ini>, env: Env)
    ensures ParseConfig(file, env) == Err(ConfigFileLoad) <==> file.None?
    ensures file.Some? ==>
      (ParseConfig(file, env).Ok? <==>
         file.value.wellFormed && forall k :: 0 <= k < |file.value.entries| ==> Known(file.value.entries[k]))
    ensures ParseConfig(file, env).Ok? ==>
      forall f :: Get(ParseConfig(file, env).value, f) ==
        match LastValue(file.value.entries, f)
        case Some(v) => Written(f, v, env)
        case None => Get(DEFAULT, f)
    ensures ParseConfig(file, env).Ok? ==>
      ParseConfig(file, env).value.moduleFile ==
        match LastValue(file.value.entries, FirstModule)
        case Some(v) => ModuleFileName(env, v)
        case None => ""
  {
    if file.Some? {
      ApplyAllAcceptsKnownKeys(DEFAULT, file.value.entries, env);
      forall f
        ensures Get(ApplyAll(DEFAULT, file.value.entries, env).1, f) ==
          match LastValue(file.value.entries, f)
          case Some(v) => Written(f, v, env)
          case None => Get(DEFAULT, f)
      {
        ApplyAllLastEntryWins(DEFAULT, file.value.entries, env, f);
      }
      assert Get(ApplyAll(DEFAULT, file.value.entries, env).1, FirstModule) ==
        Text(ApplyAll(DEFAULT, file.value.entries, env).1.moduleFile);
    }
  }
}

/** `config_data` filled in place by the handler. */
module PlayerConfigObject {
  import opened Machine
  import opened PlayerConfig

  class ConfigData {
    var wattrs: WindowAttrs
    var wr: Resolution
    var ccl: ClearColor
    var moduleFile: string

    function Model(): Config
      reads this
    {
      Config(wattrs, wr, ccl, moduleFile)
    }

    constructor ()
      ensures Model() == DEFAULT
    {
      wattrs := DEFAULT.wattrs;
      wr := DEFAULT.wr;
      ccl := DEFAULT.ccl;
      moduleFile := "";
    }

    /** config_handler writing through its `user` pointer. */
    method Handle(section: string, name: string, value: string, env: Env) returns (status: int)
      modifies this
      ensures (status, Model()) == Handler(old(Model()), section, name, value, env)
    {
      var f := FieldOf(section, name);
      if f.None? {
        return 0;
      }
      status := 1;
      match f.value
      case Name => wattrs := wattrs.(name := value);
      case MonitorIndex => wattrs := wattrs.(monitorIndex := Atoi(value));
      case Windowed => wattrs := wattrs.(windowed := Atoi(value) != 0);
      case Cursor => wattrs := wattrs.(cursor := Atoi(value) != 0);
      case Width => wr := wr.(width := Atoi(value));
      case Height => wr := wr.(height := Atoi(value));
      case VSync => wattrs := wattrs.(vsync := Atoi(value) != 0);
      case Msaa => wattrs := wattrs.(msaa := Atoi(value) != 0);
      case CapFps => wattrs := wattrs.(fpsCap := (Atoi(value) != 0, wattrs.fpsCap.1));
      case FpsCapValue => wattrs := wattrs.(fpsCap := (wattrs.fpsCap.0, Wrap8(Atoi(value))));
      case ClearR => ccl := ccl.(r := env.strtof(value));
      case ClearG => ccl := ccl.(g := env.strtof(value));
      case ClearB => ccl := ccl.(b := env.strtof(value));
      case ClearA => ccl := ccl.(a := env.strtof(value));
      case FirstModule => moduleFile := ModuleFileName(env, value);
    }
  }
}
