/**
 The configuration file of the simulator (src/config/config.c) over an arbitrary
 schema: what config_write_file prints, what config_parse_file reads, and the
 store that config_set_bool, config_set_int and config_set_string update.
 */
module ConfigFile {
  import opened Wrappers
  import opened ConfigText

  /** bool, int and uint32_t members, and char arrays that keep at most `cap` characters. */
  datatype Kind = Flag | Signed | Unsigned | Text(cap: nat)

  datatype Value = B(b: bool) | N(n: int) | S(s: string)

  /** lo and hi bound a number or the length of a string in config_validate. */
  datatype Field = Field(key: string, kind: Kind, default: Value, lo: int, hi: int)

  datatype Section = Section(name: string, fields: seq<Field>)

  type Schema = seq<Section>

  datatype Name = Name(section: nat, key: string)

  type Config = map<Name, Value>

  /** Which of the three setters a value is sent to. */
  datatype Setter = SetBool | SetInt | SetString

  datatype Guess = IsBool(b: bool) | IsInt(digits: string) | IsString(s: string)

  /** What atoi does with a number above INT_MAX, which the C standard leaves open. */
  type Overflow = string -> int

  // --- the file's shape --------------------------------------------------------------

  function Show(v: Value): string {
    match v
    case B(b) => if b then "true" else "false"
    case N(n) => if n < 0 then "-" + Decimal(-n) else Decimal(n)
    case S(s) => s
  }

  /** A line without its newline. */
  function FieldLine(f: Field, v: Value): string { f.key + " = " + Show(v) }

  function HeaderLine(section: Section): string { "[" + section.name + "]" }

  function FieldLines(fields: seq<Field>, k: nat, config: Config): seq<string>
    requires forall f :: f in fields ==> Name(k, f.key) in config
  {
    if fields == [] then []
    else [FieldLine(fields[0], config[Name(k, fields[0].key)])] + FieldLines(fields[1..], k, config)
  }

  ghost predicate Covers(schema: Schema, config: Config) {
    forall k, f :: 0 <= k < |schema| && f in schema[k].fields ==> Name(k, f.key) in config
  }

  /** The sections from k on, a blank line between one and the next. */
  function SectionLines(schema: Schema, k: nat, config: Config): seq<string>
    requires k <= |schema| && Covers(schema, config)
    decreases |schema| - k
  {
    if k == |schema| then [] else
    [HeaderLine(schema[k])] + FieldLines(schema[k].fields, k, config)
    + (if k + 1 < |schema| then [""] else []) + SectionLines(schema, k + 1, config)
  }

  function FileLines(schema: Schema, config: Config): seq<string>
    requires Covers(schema, config)
  {
    ["# 5G UE Simulation Configuration File", ""] + SectionLines(schema, 0, config)
  }

  function Joined(lines: seq<string>): string {
    if lines == [] then [] else lines[0] + ['\n'] + Joined(lines[1..])
  }

  // --- the setters ---------------------------------------------------------------------

  predicate Accepts(kind: Kind, setter: Setter) {
    match kind
    case Flag => setter == SetBool
    case Signed => setter == SetInt
    case Unsigned => setter == SetInt
    case Text(_) => setter == SetString
  }

  /** The first comparison that succeeds in a setter's chain for one section. */
  function Lookup(fields: seq<Field>, setter: Setter, key: string): Option<Field> {
    if fields == [] then None
    else if Accepts(fields[0].kind, setter) && Lower(key) == Lower(fields[0].key) then Some(fields[0])
    else Lookup(fields[1..], setter, key)
  }

  /** The setter has a case for the section: some member of it has the setter's type. */
  predicate Serves(fields: seq<Field>, setter: Setter) {
    exists i :: 0 <= i < |fields| && Accepts(fields[i].kind, setter)
  }

  function Store(kind: Kind, v: Value): Value {
    match (kind, v)
    case (Unsigned, N(n)) => N(n % UINT_RANGE)
    case (Text(cap), S(s)) => S(if |s| <= cap then s else s[..cap])
    case _ => v
  }

  function Set(schema: Schema, config: Config, k: nat, setter: Setter, key: string, v: Value): Config
    requires k < |schema|
  {
    match Lookup(schema[k].fields, setter, key)
    case None => config
    case Some(f) => config[Name(k, f.key) := Store(f.kind, v)]
  }

  // --- the parser ------------------------------------------------------------------------

  datatype ParseState = ParseState(config: Config, section: nat)

  function GuessType(value: string): Guess {
    if Lower(value) == "true" || Lower(value) == "false" then IsBool(Lower(value) == "true")
    else if AllDigits(value) then IsInt(value)
    else IsString(value)
  }

  function Atoi(digits: string, overflow: Overflow): int
    requires AllDigits(digits)
  {
    if FromDecimal(digits) <= INT_MAX then FromDecimal(digits) else overflow(digits)
  }

  function Assign(schema: Schema, st: ParseState, key: string, value: string, overflow: Overflow): ParseState
    requires st.section < |schema|
  {
    match GuessType(value)
    case IsBool(b) => st.(config := Set(schema, st.config, st.section, SetBool, key, B(b)))
    case IsInt(digits) => st.(config := Set(schema, st.config, st.section, SetInt, key, N(Atoi(digits, overflow))))
    case IsString(s) => st.(config := Set(schema, st.config, st.section, SetString, key, S(s)))
  }

  /** The first section with that name, or |schema|. */
  function FindSection(schema: Schema, name: string): (k: nat)
    ensures k <= |schema|
  {
    if schema == [] then 0
    else if Lower(name) == Lower(schema[0].name) then 0
    else 1 + FindSection(schema[1..], name)
  }

  /** One line as fgets returned it, after the comment is cut and both ends are trimmed. */
  function Stripped(line: string): string {
    DropTrailing(DropBlanks(Until(Until(line, '\0'), '#')), IsSpace)
  }

  function ParseLine(schema: Schema, st: ParseState, line: string, overflow: Overflow): (r: ParseState)
    requires st.section < |schema|
    ensures r.section < |schema|
  {
    var start := Stripped(line);
    if start == [] then st
    else if start[0] == '[' then
      if ']' !in start then st else
      var k := FindSection(schema, Until(start, ']')[1..]);
      if k < |schema| then st.(section := k) else st
    else if '=' !in start then st
    else
      var left := Until(start, '=');
      Assign(schema, st, DropTrailing(left, IsBlank), DropBlanks(start[|left| + 1..]), overflow)
  }

  function ParseText(schema: Schema, st: ParseState, text: string, overflow: Overflow): ParseState
    requires st.section < |schema|
    decreases |text|
  {
    if text == [] then st else
    var n := LineLength(text, MAX_LINE);
    ParseText(schema, ParseLine(schema, st, text[..n], overflow), text[n..], overflow)
  }

  // --- load and save ----------------------------------------------------------------------

  ghost predicate HoldsDefaults(schema: Schema, config: Config) {
    && (forall k, f :: 0 <= k < |schema| && f in schema[k].fields ==>
          Name(k, f.key) in config && config[Name(k, f.key)] == f.default)
    && (forall n :: n in config ==> n.section < |schema| && exists f :: f in schema[n.section].fields && f.key == n.key)
  }

  predicate ValidValue(f: Field, v: Value) {
    match v
    case B(_) => true
    case N(n) => f.lo <= n <= f.hi
    case S(s) => f.lo <= |s| <= f.hi
  }

  /** config_validate: each check looks at one member only. */
  ghost predicate Valid(schema: Schema, config: Config)
    requires Covers(schema, config)
  {
    forall k, f :: 0 <= k < |schema| && f in schema[k].fields ==> ValidValue(f, config[Name(k, f.key)])
  }
}
