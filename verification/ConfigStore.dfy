/**
 The configuration object and the loops that fill, print and check it
 (src/config/config.c), each proved against the functions of ConfigFile; then what
 that means for the configuration the program is shipped with.
 */
module ConfigStore {
  import opened Wrappers
  import opened ConfigText
  import opened ConfigFile
  import opened ConfigRoundTrip
  import opened ConfigSchema

  datatype Status = Success | InvalidParam | FileError

  /** The argument of config_load: no name, a name fopen rejects, or a text. */
  datatype FileArg = NoFile | Missing | Readable(text: string)

  /** r is what a load of that text leaves behind, whatever was there before. */
  ghost predicate LoadsTo(schema: Schema, file: FileArg, overflow: Overflow, r: Config)
    requires schema != []
  {
    exists d :: HoldsDefaults(schema, d) && r == AfterParse(schema, file, overflow, d)
  }

  function AfterParse(schema: Schema, file: FileArg, overflow: Overflow, d: Config): Config
    requires schema != []
  {
    if file.Readable? then ParseText(schema, ParseState(d, 0), file.text, overflow).config else d
  }

  lemma FieldLinesAppend(fields: seq<Field>, i: nat, k: nat, config: Config)
    requires i < |fields| && forall f :: f in fields ==> Name(k, f.key) in config
    ensures Joined(FieldLines(fields[i..], k, config))
            == FieldLine(fields[i], config[Name(k, fields[i].key)]) + ['\n'] + Joined(FieldLines(fields[i + 1..], k, config))
  {}

  lemma {:induction false} JoinedAppend(a: seq<string>, b: seq<string>)
    ensures Joined(a + b) == Joined(a) + Joined(b)
  {
    if a == [] {
      assert a + b == b;
    } else {
      assert (a + b)[1..] == a[1..] + b;
      JoinedAppend(a[1..], b);
    }
  }

  /** A section as it stands in the file, with the blank line that follows all but the last. */
  function SectionText(schema: Schema, k: nat, config: Config): string
    requires k < |schema| && Covers(schema, config)
  {
    HeaderLine(schema[k]) + ['\n'] + Joined(FieldLines(schema[k].fields, k, config))
    + (if k + 1 < |schema| then ['\n'] else [])
  }

  lemma JoinedSection(schema: Schema, k: nat, config: Config)
    requires k < |schema| && Covers(schema, config)
    ensures Joined(SectionLines(schema, k, config))
            == SectionText(schema, k, config) + Joined(SectionLines(schema, k + 1, config))
  {
    var header, fields := [HeaderLine(schema[k])], FieldLines(schema[k].fields, k, config);
    var gap := if k + 1 < |schema| then [""] else [];
    var rest := SectionLines(schema, k + 1, config);
    JoinedAppend(header + fields + gap, rest);
    JoinedAppend(header + fields, gap);
    JoinedAppend(header, fields);
    assert header[1..] == [] && gap != [] ==> gap[1..] == [];
    assert Joined(header) == HeaderLine(schema[k]) + ['\n'];
    assert Joined(gap) == if k + 1 < |schema| then ['\n'] else [];
  }

  /** Nothing but members of the schema is stored. */
  ghost predicate NamesOnly(schema: Schema, config: Config) {
    forall n :: n in config ==>
      n.section < |schema| && exists f :: f in schema[n.section].fields && f.key == n.key
  }

  /** Outside section k the two configurations agree. */
  ghost predicate SameOutside(k: nat, a: Config, b: Config) {
    forall n: Name :: n.section != k ==> (n in a <==> n in b) && (n in a && n in b ==> a[n] == b[n])
  }

  predicate DistinctKeys(fields: seq<Field>) {
    forall i, j :: 0 <= i < j < |fields| ==> fields[i].key != fields[j].key
  }

  ghost predicate DefaultsBelow(fields: seq<Field>, k: nat, i: nat, config: Config)
    requires i <= |fields|
  {
    forall j :: 0 <= j < i ==> Name(k, fields[j].key) in config && config[Name(k, fields[j].key)] == fields[j].default
  }

  lemma DefaultStep(schema: Schema, before: Config, config: Config, k: nat, i: nat)
    requires k < |schema| && i < |schema[k].fields| && DistinctKeys(schema[k].fields)
    requires NamesOnly(schema, config) && SameOutside(k, before, config) && DefaultsBelow(schema[k].fields, k, i, config)
    ensures var f := schema[k].fields[i];
            var next := config[Name(k, f.key) := f.default];
            NamesOnly(schema, next) && SameOutside(k, before, next) && DefaultsBelow(schema[k].fields, k, i + 1, next)
  {}

  class Store {
    const schema: Schema
    var values: Config
    var loaded: bool

    ghost predicate Valid()
      reads this
    {
      schema != [] && NamesOnly(schema, values)
    }

    constructor (schema: Schema, ghost overflow: Overflow)
      requires WellFormed(schema, overflow)
      ensures Valid() && this.schema == schema && HoldsDefaults(schema, values) && !loaded
    {
      this.schema, values, loaded := schema, map[], false;
      new;
      LoadDefault(overflow);
    }

    method LoadDefault(ghost overflow: Overflow)
      requires Valid() && WellFormed(schema, overflow)
      modifies `values
      ensures Valid() && HoldsDefaults(schema, values)
    {
      var k := 0;
      while k < |schema|
        invariant k <= |schema| && Valid()
        invariant forall j, f :: 0 <= j < k && f in schema[j].fields ==>
                    Name(j, f.key) in values && values[Name(j, f.key)] == f.default
      {
        assert WellFormedSection(schema[k]);
        DefaultSection(k);
        k := k + 1;
      }
    }

    method DefaultSection(k: nat)
      requires Valid() && k < |schema| && DistinctKeys(schema[k].fields)
      modifies `values
      ensures Valid()
      ensures SameOutside(k, old(values), values)
      ensures forall f :: f in schema[k].fields ==> Name(k, f.key) in values && values[Name(k, f.key)] == f.default
    {
      var fields := schema[k].fields;
      var i := 0;
      while i < |fields|
        invariant i <= |fields| && Valid()
        invariant SameOutside(k, old(values), values)
        invariant DefaultsBelow(fields, k, i, values)
      {
        DefaultStep(schema, old(values), values, k, i);
        values := values[Name(k, fields[i].key) := fields[i].default];
        i := i + 1;
      }
    }

    method SetMember(k: nat, setter: Setter, key: string, v: Value) returns (status: Status)
      requires Valid() && k < |schema|
      modifies `values
      ensures Valid() && values == Set(schema, old(values), k, setter, key, v)
      ensures status == if Serves(schema[k].fields, setter) then Success else InvalidParam
    {
      var fields := schema[k].fields;
      var served := false;
      var i := 0;
      while i < |fields|
        invariant i <= |fields| && (served <==> Serves(fields[..i], setter))
        invariant Lookup(fields, setter, key) == Lookup(fields[i..], setter, key)
      {
        var f := fields[i];
        assert fields[i..][0] == f && fields[i..][1..] == fields[i + 1..];
        if Accepts(f.kind, setter) && Lower(key) == Lower(f.key) {
          values := values[Name(k, f.key) := ConfigFile.Store(f.kind, v)];
          return Success;
        }
        served := served || Accepts(f.kind, setter);
        i := i + 1;
      }
      assert fields[..i] == fields;
      status := if served then Success else InvalidParam;
    }

    method FindSectionByName(name: string) returns (k: nat)
      ensures k == FindSection(schema, name)
    {
      k := 0;
      assert schema[0..] == schema;
      while k < |schema| && Lower(name) != Lower(schema[k].name)
        invariant k <= |schema|
        invariant FindSection(schema, name) == k + FindSection(schema[k..], name)
      {
        assert schema[k..][1..] == schema[k + 1..];
        k := k + 1;
      }
    }

    method AssignGuessed(section: nat, key: string, value: string, overflow: Overflow)
      requires Valid() && section < |schema|
      modifies `values
      ensures Valid()
      ensures ParseState(values, section) == Assign(schema, ParseState(old(values), section), key, value, overflow)
    {
      var status;
      if Lower(value) == "true" || Lower(value) == "false" {
        status := SetMember(section, SetBool, key, B(Lower(value) == "true"));
      } else if AllDigits(value) {
        status := SetMember(section, SetInt, key, N(Atoi(value, overflow)));
      } else {
        status := SetMember(section, SetString, key, S(value));
      }
    }

    /** One turn of config_parse_file's loop; the section it leaves selected. */
    method ParseOne(section: nat, line: string, overflow: Overflow) returns (next: nat)
      requires Valid() && section < |schema|
      modifies `values
      ensures Valid() && next < |schema|
      ensures ParseState(values, next) == ParseLine(schema, ParseState(old(values), section), line, overflow)
    {
      next := section;
      var start := CutAt(line, '\0');
      start := CutAt(start, '#');
      start := TrimStart(start);
      start := TrimEnd(start, IsSpace);
      if start == [] {
        return;
      }
      if start[0] == '[' {
        if ']' in start {
          var name := CutAt(start, ']');
          var k := FindSectionByName(name[1..]);
          next := if k < |schema| then k else section;
        }
        return;
      }
      if '=' in start {
        var left := CutAt(start, '=');
        var key := TrimEnd(left, IsBlank);
        var value := TrimStart(start[|left| + 1..]);
        AssignGuessed(section, key, value, overflow);
      }
    }

    method ParseFile(text: string, overflow: Overflow)
      requires Valid()
      modifies `values
      ensures Valid()
      ensures values == ParseText(schema, ParseState(old(values), 0), text, overflow).config
    {
      var rest: string, section: nat := text, 0;
      while rest != []
        invariant Valid() && section < |schema|
        invariant ParseText(schema, ParseState(old(values), 0), text, overflow)
               == ParseText(schema, ParseState(values, section), rest, overflow)
        decreases |rest|
      {
        var line, tail := GetLine(rest);
        section := ParseOne(section, line, overflow);
        rest := tail;
      }
    }

    method WriteFields(k: nat) returns (text: string)
      requires k < |schema| && Covers(schema, values)
      ensures text == Joined(FieldLines(schema[k].fields, k, values))
    {
      var fields := schema[k].fields;
      text := [];
      var i := 0;
      assert fields[0..] == fields;
      while i < |fields|
        invariant i <= |fields|
        invariant Joined(FieldLines(fields, k, values)) == text + Joined(FieldLines(fields[i..], k, values))
      {
        FieldLinesAppend(fields, i, k, values);
        text := text + (FieldLine(fields[i], values[Name(k, fields[i].key)]) + ['\n']);
        i := i + 1;
      }
    }

    method WriteSection(k: nat) returns (text: string)
      requires k < |schema| && Covers(schema, values)
      ensures text == SectionText(schema, k, values)
    {
      var fields := WriteFields(k);
      text := HeaderLine(schema[k]) + ['\n'] + fields + (if k + 1 < |schema| then ['\n'] else []);
    }

    method WriteSections() returns (text: string)
      requires Covers(schema, values)
      ensures text == Joined(SectionLines(schema, 0, values))
    {
      text := [];
      var k := 0;
      while k < |schema|
        invariant k <= |schema|
        invariant Joined(SectionLines(schema, 0, values)) == text + Joined(SectionLines(schema, k, values))
      {
        JoinedSection(schema, k, values);
        var block := WriteSection(k);
        Regroup(text, block, Joined(SectionLines(schema, k + 1, values)));
        text := text + block;
        k := k + 1;
      }
    }

    method WriteFile() returns (text: string)
      requires Covers(schema, values)
      ensures text == Joined(FileLines(schema, values))
    {
      var front := ["# 5G UE Simulation Configuration File", ""];
      text := WriteSections();
      JoinedAppend(front, SectionLines(schema, 0, values));
      text := Joined(front) + text;
    }

    method Validate() returns (status: Status)
      requires Covers(schema, values)
      ensures status == if ConfigFile.Valid(schema, values) then Success else InvalidParam
    {
      var k := 0;
      while k < |schema|
        invariant k <= |schema|
        invariant forall j, f :: 0 <= j < k && f in schema[j].fields ==> ValidValue(f, values[Name(j, f.key)])
      {
        var i := 0;
        while i < |schema[k].fields|
          invariant i <= |schema[k].fields|
          invariant forall j :: 0 <= j < i ==> ValidValue(schema[k].fields[j], values[Name(k, schema[k].fields[j].key)])
        {
          var f := schema[k].fields[i];
          assert f in schema[k].fields;
          if !ValidValue(f, values[Name(k, f.key)]) {
            return InvalidParam;
          }
          i := i + 1;
        }
        k := k + 1;
      }
      status := Success;
    }

    /** Defaults, and the file over them if there is a readable one. */
    method Fill(file: FileArg, overflow: Overflow)
      requires Valid() && WellFormed(schema, overflow)
      modifies `values
      ensures Valid() && Covers(schema, values) && LoadsTo(schema, file, overflow, values)
    {
      LoadDefault(overflow);
      ghost var d := values;
      if file.Readable? {
        ParseFile(file.text, overflow);
      }
      LoadCovers(schema, file, overflow, d);
    }

    method Load(file: FileArg, overflow: Overflow) returns (status: Status)
      requires Valid() && WellFormed(schema, overflow)
      modifies `values, `loaded
      ensures Valid() && Covers(schema, values) && LoadsTo(schema, file, overflow, values)
      ensures status == if file.Missing? then FileError
                        else if ConfigFile.Valid(schema, values) then Success else InvalidParam
      ensures loaded == (status == Success || old(loaded))
    {
      Fill(file, overflow);
      if file.Missing? {
        return FileError;
      }
      status := Validate();
      loaded := status == Success || loaded;
    }
  }

  /** A parse never removes a member. */
  lemma {:induction false} ParseKeepsMembers(schema: Schema, st: ParseState, text: string, overflow: Overflow)
    requires st.section < |schema|
    ensures st.config.Keys <= ParseText(schema, st, text, overflow).config.Keys
    decreases |text|
  {
    if text != [] {
      var n := LineLength(text, MAX_LINE);
      LineKeepsMembers(schema, st, text[..n], overflow);
      ParseKeepsMembers(schema, ParseLine(schema, st, text[..n], overflow), text[n..], overflow);
    }
  }

  lemma LoadCovers(schema: Schema, file: FileArg, overflow: Overflow, d: Config)
    requires schema != [] && HoldsDefaults(schema, d)
    ensures Covers(schema, AfterParse(schema, file, overflow, d))
    ensures LoadsTo(schema, file, overflow, AfterParse(schema, file, overflow, d))
  {
    if file.Readable? {
      ParseKeepsMembers(schema, ParseState(d, 0), file.text, overflow);
    }
  }

  lemma LineKeepsMembers(schema: Schema, st: ParseState, line: string, overflow: Overflow)
    requires st.section < |schema|
    ensures st.config.Keys <= ParseLine(schema, st, line, overflow).config.Keys
  {}

  lemma DefaultsAreUnique(schema: Schema, c: Config, d: Config)
    requires HoldsDefaults(schema, c) && HoldsDefaults(schema, d)
    ensures c == d
  {
    forall n ensures (n in c <==> n in d) && (n in c ==> c[n] == d[n]) {
      if n in c {
        var f :| f in schema[n.section].fields && f.key == n.key;
        assert Name(n.section, f.key) == n;
      }
      if n in d {
        var f :| f in schema[n.section].fields && f.key == n.key;
        assert Name(n.section, f.key) == n;
      }
    }
  }

  /** Loading what was saved restores the configuration if and only if each member survives or is its default. */
  lemma SaveThenLoad(schema: Schema, saved: Config, r: Config, overflow: Overflow)
    requires WellFormed(schema, overflow) && TypedConfig(schema, saved) && Covers(schema, saved)
    requires LoadsTo(schema, Readable(Joined(FileLines(schema, saved))), overflow, r)
    ensures r == saved <==> ComesBack(schema, saved, overflow)
  {
    var d :| HoldsDefaults(schema, d) && r == AfterParse(schema, Readable(Joined(FileLines(schema, saved))), overflow, d);
    RoundTripIff(schema, saved, d, overflow);
  }

  lemma DigitTextReloads(f: Field, s: string, overflow: Overflow)
    requires f.kind.Text? && AllDigits(s)
    ensures Reload(f, S(s), overflow) == None
  {}

  /** The text shows no more than a number setter would take: digits, or nothing at all. */
  lemma DigitStringsRevert(schema: Schema, saved: Config, d: Config, j: nat, i: nat, overflow: Overflow)
    requires WellFormed(schema, overflow) && TypedConfig(schema, saved) && OneLineEach(saved) && HoldsDefaults(schema, d)
    requires j < |schema| && i < |schema[j].fields| && schema[j].fields[i].kind.Text?
    requires var v := saved[Name(j, schema[j].fields[i].key)]; v.S? && AllDigits(v.s)
    ensures Covers(schema, saved)
    ensures var n := Name(j, schema[j].fields[i].key);
            n in LoadOfSave(schema, saved, d, overflow) && LoadOfSave(schema, saved, d, overflow)[n] == schema[j].fields[i].default
  {
    LoadedMember(schema, saved, d, j, i, overflow);
    var f := schema[j].fields[i];
    DigitTextReloads(f, saved[Name(j, f.key)].s, overflow);
  }

  lemma NegativesRevert(schema: Schema, saved: Config, d: Config, j: nat, i: nat, overflow: Overflow)
    requires WellFormed(schema, overflow) && TypedConfig(schema, saved) && OneLineEach(saved) && HoldsDefaults(schema, d)
    requires j < |schema| && i < |schema[j].fields|
    requires var v := saved[Name(j, schema[j].fields[i].key)]; v.N? && v.n < 0
    ensures Covers(schema, saved)
    ensures var n := Name(j, schema[j].fields[i].key);
            n in LoadOfSave(schema, saved, d, overflow) && LoadOfSave(schema, saved, d, overflow)[n] == schema[j].fields[i].default
  {
    LoadedMember(schema, saved, d, j, i, overflow);
    var f := schema[j].fields[i];
    assert f in schema[j].fields;
    assert Typed(f, saved[Name(j, f.key)]);
    NegativeReloads(f, saved[Name(j, f.key)].n, overflow);
  }

  // --- the shipped schema ------------------------------------------------------------------

  /** The round trip of the program's own configuration, through Load and WriteFile. */
  lemma UesimRoundTrip(saved: Config, r: Config, overflow: Overflow)
    requires TypedConfig(UesimSchema(), saved) && Covers(UesimSchema(), saved)
    requires LoadsTo(UesimSchema(), Readable(Joined(FileLines(UesimSchema(), saved))), overflow, r)
    ensures r == saved <==> ComesBack(UesimSchema(), saved, overflow)
  {
    UesimIsWellFormed(overflow);
    SaveThenLoad(UesimSchema(), saved, r, overflow);
  }

  lemma UesimMcc()
    ensures |UesimSchema()| > 2 && |UesimSchema()[2].fields| > 5
    ensures UesimSchema()[2].fields[5] == Str("mcc", "001", 7, 3, 3)
  {
    assert UesimSchema()[2].fields == UeFields();
  }

  lemma CodeIsDigits()
    ensures AllDigits("310")
  {}

  /** A country code such as 310 is written as it is and read back as 001. */
  lemma MccIsLost(schema: Schema, saved: Config, d: Config, mcc: Field, overflow: Overflow)
    requires WellFormed(schema, overflow) && TypedConfig(schema, saved) && OneLineEach(saved) && HoldsDefaults(schema, d)
    requires |schema| > 2 && |schema[2].fields| > 5 && schema[2].fields[5] == mcc
    requires mcc.kind == Text(7) && mcc.default == S("001") && saved[Name(2, mcc.key)] == S("310")
    ensures Covers(schema, saved)
    ensures var r := LoadOfSave(schema, saved, d, overflow);
            Name(2, mcc.key) in r && r[Name(2, mcc.key)] == S("001")
  {
    CodeIsDigits();
    DigitStringsRevert(schema, saved, d, 2, 5, overflow);
  }

  /** So it is in the program: mcc = 310 is saved, and 001 is loaded. */
  lemma UesimMccIsLost(schema: Schema, saved: Config, d: Config, mcc: Field, overflow: Overflow)
    requires schema == UesimSchema() && mcc == Str("mcc", "001", 7, 3, 3)
    requires TypedConfig(schema, saved) && OneLineEach(saved) && HoldsDefaults(schema, d)
    requires Name(2, mcc.key) in saved && saved[Name(2, mcc.key)] == S("310")
    ensures Covers(schema, saved) && schema != []
    ensures var r := LoadOfSave(schema, saved, d, overflow);
            Name(2, mcc.key) in r && r[Name(2, mcc.key)] == S("001")
  {
    UesimIsWellFormed(overflow);
    UesimMcc();
    MccIsLost(schema, saved, d, mcc, overflow);
  }
}
