/**
 Reading back what was written. For every well-formed schema the two directions
 are compared member by member, and the exact set of configurations that come
 back unchanged is characterised.
 */
module ConfigRoundTrip {
  import opened Wrappers
  import opened ConfigText
  import opened ConfigFile

  // --- assumptions on schema and values ----------------------------------------------

  predicate IsIdent(s: string) {
    && 0 < |s| <= 64
    && forall i :: 0 <= i < |s| ==> 'a' <= s[i] <= 'z' || IsDigit(s[i]) || s[i] == '_'
  }

  /** What a member of that type can hold in memory. */
  predicate Typed(f: Field, v: Value) {
    match f.kind
    case Flag => v.B?
    case Signed => v.N? && -INT_MAX - 1 <= v.n <= INT_MAX
    case Unsigned => v.N? && 0 <= v.n < UINT_RANGE
    case Text(cap) => v.S? && |v.s| <= cap <= 255 && '\0' !in v.s
  }

  ghost predicate WellFormedField(f: Field) {
    && IsIdent(f.key)
    && Typed(f, f.default)
    && '\n' !in Show(f.default)
  }

  ghost predicate WellFormedSection(section: Section) {
    && IsIdent(section.name)
    && (forall i :: 0 <= i < |section.fields| ==> WellFormedField(section.fields[i]))
    && (forall i, j :: 0 <= i < j < |section.fields| ==> section.fields[i].key != section.fields[j].key)
  }

  /** Duplicate-free names and keys; every default is one its own line can restore or leaves alone. */
  ghost predicate WellFormed(schema: Schema, overflow: Overflow) {
    && schema != []
    && (forall k :: 0 <= k < |schema| ==> WellFormedSection(schema[k]))
    && (forall j, k :: 0 <= j < k < |schema| ==> schema[j].name != schema[k].name)
    && (forall k, f :: 0 <= k < |schema| && f in schema[k].fields ==> KeepsDefault(f, overflow))
  }

  ghost predicate KeepsDefault(f: Field, overflow: Overflow) {
    Reload(f, f.default, overflow) in {None, Some(f.default)}
  }

  ghost predicate TypedConfig(schema: Schema, config: Config) {
    && (forall k, f :: 0 <= k < |schema| && f in schema[k].fields ==>
          Name(k, f.key) in config && Typed(f, config[Name(k, f.key)]))
    && (forall n :: n in config ==> n.section < |schema| && exists f :: f in schema[n.section].fields && f.key == n.key)
  }

  // --- what one member becomes ----------------------------------------------------------

  /** A value's text once its line has been stripped. */
  function Trimmed(x: string): string {
    DropBlanks(DropAllTrailing(Until(x, '#'), IsSpace))
  }

  function Reload(f: Field, v: Value, overflow: Overflow): Option<Value> {
    match GuessType(Trimmed(Show(v)))
    case IsBool(b) => if Accepts(f.kind, SetBool) then Some(Store(f.kind, B(b))) else None
    case IsInt(digits) => if Accepts(f.kind, SetInt) then Some(Store(f.kind, N(Atoi(digits, overflow)))) else None
    case IsString(s) => if Accepts(f.kind, SetString) then Some(Store(f.kind, S(s))) else None
  }

  type Reloader = (Field, Value) -> Option<Value>

  function ReloadWith(overflow: Overflow): Reloader {
    (f: Field, v: Value) => Reload(f, v, overflow)
  }

  function Put(config: Config, name: Name, o: Option<Value>): Config {
    match o
    case None => config
    case Some(x) => config[name := x]
  }

  /** The condition a caller can check on a member before saving. */
  predicate Survives(f: Field, v: Value, overflow: Overflow) {
    match v
    case B(_) => true
    case N(n) => n >= 0 && (n <= INT_MAX || overflow(Decimal(n)) % UINT_RANGE == n)
    case S(s) =>
      && s != [] && '#' !in s && '\n' !in s
      && !IsBlank(s[0]) && !IsSpace(s[|s| - 1])
      && Lower(s) != "true" && Lower(s) != "false" && !AllDigits(s)
  }

  lemma TrimmedIsIdentity(x: string)
    requires x != [] && '#' !in x && !IsBlank(x[0]) && !IsSpace(x[|x| - 1])
    ensures Trimmed(x) == x
  {}

  lemma TrimmedShape(x: string)
    ensures var t := Trimmed(x);
            && '#' !in t && |t| <= |x| && ('\n' !in x ==> '\n' !in t)
            && (t != [] ==> !IsBlank(t[0]) && !IsSpace(t[|t| - 1]))
  {
    var u := Until(x, '#');
    var w := DropAllTrailing(u, IsSpace);
    DropAllTrailingShape(u, IsSpace);
    DropBlanksShape(w);
    assert forall c :: c in Trimmed(x) ==> c in w;
    assert forall c :: c in w ==> c in u;
    assert forall c :: c in u ==> c in x;
  }

  lemma DecimalIsPlain(n: nat)
    ensures '#' !in Decimal(n) && '\n' !in Decimal(n) && '\0' !in Decimal(n)
    ensures Trimmed(Decimal(n)) == Decimal(n) && GuessType(Decimal(n)) == IsInt(Decimal(n))
  {
    var s := Decimal(n);
    assert IsDigit(s[0]) && IsDigit(s[|s| - 1]);
    TrimmedIsIdentity(s);
    assert Lower(s)[0] == s[0];
  }

  lemma NegativeReloads(f: Field, n: int, overflow: Overflow)
    requires f.kind == Signed && n < 0
    ensures Reload(f, N(n), overflow) == None
  {}

  lemma NumberReloads(f: Field, n: int, overflow: Overflow)
    requires Typed(f, N(n))
    ensures Reload(f, N(n), overflow)
            == if n < 0 then None
               else Some(Store(f.kind, N(if n <= INT_MAX then n else overflow(Decimal(n)))))
  {
    if n < 0 {
      NegativeReloads(f, n, overflow);
    } else {
      DecimalIsPlain(n);
      DecimalRoundTrip(n);
    }
  }

  lemma StoredUnsigned(n: int, o: int)
    requires 0 <= n < UINT_RANGE
    ensures Store(Unsigned, N(n)) == N(n) && (Store(Unsigned, N(o)) == N(n) <==> o % UINT_RANGE == n)
  {}

  lemma NumberReloadsIff(f: Field, n: int, overflow: Overflow)
    requires Typed(f, N(n))
    ensures Reload(f, N(n), overflow) == Some(N(n)) <==> Survives(f, N(n), overflow)
  {
    NumberReloads(f, n, overflow);
    if n > INT_MAX {
      StoredUnsigned(n, overflow(Decimal(n)));
    } else if n >= 0 && f.kind == Unsigned {
      StoredUnsigned(n, n);
    }
  }

  lemma TextReloadsIff(f: Field, s: string, overflow: Overflow)
    requires Typed(f, S(s)) && '\n' !in s
    ensures Reload(f, S(s), overflow) == Some(S(s)) <==> Survives(f, S(s), overflow)
  {
    TrimmedShape(s);
    if s != [] && '#' !in s && !IsBlank(s[0]) && !IsSpace(s[|s| - 1]) {
      TrimmedIsIdentity(s);
    }
  }

  lemma TrueIsAWord()
    ensures GuessType(Trimmed("true")) == IsBool(true)
  {
    TrimmedIsIdentity("true");
    assert Lower("true") == "true";
  }

  lemma FalseIsAWord()
    ensures GuessType(Trimmed("false")) == IsBool(false)
  {
    TrimmedIsIdentity("false");
    assert Lower("false") == "false";
    assert |"true"| != |"false"|;
  }

  lemma FlagReloads(f: Field, b: bool, overflow: Overflow)
    requires f.kind == Flag
    ensures Reload(f, B(b), overflow) == Some(B(b))
  {
    if b { TrueIsAWord(); } else { FalseIsAWord(); }
  }

  /** A member comes back as it was exactly when it satisfies Survives. */
  lemma ReloadIsIdentityIff(f: Field, v: Value, overflow: Overflow)
    requires Typed(f, v) && '\n' !in Show(v)
    ensures Reload(f, v, overflow) == Some(v) <==> Survives(f, v, overflow)
  {
    match v
    case B(b) => FlagReloads(f, b, overflow);
    case N(n) => NumberReloadsIff(f, n, overflow);
    case S(s) => TextReloadsIff(f, s, overflow);
  }

  // --- one line --------------------------------------------------------------------------

  lemma IdentIsLower(s: string)
    requires IsIdent(s)
    ensures Lower(s) == s
  {}

  lemma {:induction false} LookupExact(fields: seq<Field>, i: nat, setter: Setter)
    requires i < |fields|
    requires forall j :: 0 <= j < |fields| ==> IsIdent(fields[j].key)
    requires forall a, b :: 0 <= a < b < |fields| ==> fields[a].key != fields[b].key
    ensures Lookup(fields, setter, fields[i].key) == if Accepts(fields[i].kind, setter) then Some(fields[i]) else None
  {
    IdentIsLower(fields[0].key);
    IdentIsLower(fields[i].key);
    if i > 0 {
      LookupExact(fields[1..], i - 1, setter);
    } else if !Accepts(fields[0].kind, setter) {
      LookupMisses(fields[1..], setter, fields[0].key);
    }
  }

  lemma {:induction false} LookupMisses(fields: seq<Field>, setter: Setter, key: string)
    requires IsIdent(key) && forall j :: 0 <= j < |fields| ==> IsIdent(fields[j].key) && fields[j].key != key
    ensures Lookup(fields, setter, key) == None
  {
    if fields != [] {
      IdentIsLower(key);
      IdentIsLower(fields[0].key);
      LookupMisses(fields[1..], setter, key);
    }
  }

  lemma CommentCut(head: string, x: string)
    requires '#' !in head
    ensures Until(head + [' '] + x + ['\n'], '#')
            == head + [' '] + (if '#' in x then Until(x, '#') else x + ['\n'])
  {
    var front := head + [' '];
    assert head + [' '] + x + ['\n'] == front + (x + ['\n']);
    UntilConcat(front, x + ['\n'], '#');
    UntilConcat(x, ['\n'], '#');
    UntilAbsent(['\n'], '#');
  }

  /** What stands before the value's text ends in a character that trimming keeps. */
  predicate IsLead(head: string) {
    && |head| > 1 && !IsBlank(head[0]) && !IsSpace(head[|head| - 1])
    && '#' !in head && '\0' !in head && '\n' !in head
  }

  lemma Regroup(a: string, b: string, c: string)
    ensures a + b + c == a + (b + c)
  {}

  lemma TailTrimmed(head: string, x: string)
    requires IsLead(head) && '\n' !in x
    ensures DropTrailing(head + [' '] + (if '#' in x then Until(x, '#') else x + ['\n']), IsSpace)
            == head + DropAllTrailing([' '] + Until(x, '#'), IsSpace)
  {
    var u := Until(x, '#');
    if '#' in x {
      Regroup(head, [' '], u);
      DropTrailingAfter(head, [' '] + u, IsSpace);
    } else {
      UntilAbsent(x, '#');
      Regroup(head, [' '], x + ['\n']);
      Regroup([' '], x, ['\n']);
      DropTrailingAfter(head, ([' '] + x) + ['\n'], IsSpace);
      TrailingNewline([' '] + x);
    }
  }

  lemma LineStripped(head: string, x: string)
    requires IsLead(head) && '\n' !in x && '\0' !in x
    ensures Stripped(head + [' '] + x + ['\n']) == head + DropAllTrailing([' '] + Until(x, '#'), IsSpace)
  {
    var line := head + [' '] + x + ['\n'];
    UntilAbsent(line, '\0');
    CommentCut(head, x);
    var cut := Until(line, '#');
    assert cut[0] == head[0];
    assert DropBlanks(cut) == cut;
    TailTrimmed(head, x);
  }

  lemma KeyLeads(key: string)
    requires IsIdent(key)
    ensures IsLead(key + " =")
  {}

  lemma EqualsSplits(key: string)
    ensures key + " = " == key + " =" + [' ']
    ensures key + " =" == key + [' '] + ['=']
  {}

  /** The line of a value, stripped: key and equals sign, then what is left of the value's text. */
  lemma FieldLineStripped(key: string, x: string)
    requires IsIdent(key) && '\n' !in x && '\0' !in x
    ensures Stripped(key + " = " + x + ['\n']) == key + " =" + DropAllTrailing([' '] + Until(x, '#'), IsSpace)
  {
    EqualsSplits(key);
    KeyLeads(key);
    LineStripped(key + " =", x);
  }

  lemma KeyTrimmed(key: string)
    requires IsIdent(key)
    ensures DropTrailing(key + [' '], IsBlank) == key
  {}

  /** Where the reader cuts "left=tail". */
  lemma PairSplits(left: string, tail: string)
    requires left != [] && left[0] != '[' && '=' !in left
    ensures var start := left + ['='] + tail;
            && start[0] != '[' && '=' in start
            && Until(start, '=') == left
            && start[|left| + 1..] == tail
  {
    Regroup(left, ['='], tail);
    UntilConcat(left, ['='] + tail, '=');
    assert (left + ['='] + tail)[|left|] == '=';
  }

  lemma FieldLineParses(schema: Schema, st: ParseState, key: string, x: string, overflow: Overflow)
    requires st.section < |schema| && IsIdent(key) && '\n' !in x && '\0' !in x
    ensures ParseLine(schema, st, key + " = " + x + ['\n'], overflow) == Assign(schema, st, key, Trimmed(x), overflow)
  {
    var tail := DropAllTrailing([' '] + Until(x, '#'), IsSpace);
    FieldLineStripped(key, x);
    EqualsSplits(key);
    PairSplits(key + [' '], tail);
    KeyTrimmed(key);
    LeadingBlank(Until(x, '#'));
  }

  lemma ShownIsPlain(f: Field, v: Value)
    requires Typed(f, v) && (v.S? ==> '\n' !in v.s)
    ensures '\n' !in Show(v) && '\0' !in Show(v)
    ensures |Show(v)| <= 255
  {
    match v
    case B(_) =>
    case N(n) =>
      var m := if n < 0 then -n else n;
      DecimalIsPlain(m);
      assert Power10(10) == 10_000_000_000 by {
        assert Power10(5) == 100_000;
      }
      DecimalIsShort(m, 10, UINT_RANGE);
    case S(_) =>
  }

  lemma SetExact(schema: Schema, config: Config, k: nat, i: nat, setter: Setter, v: Value)
    requires k < |schema| && WellFormedSection(schema[k]) && i < |schema[k].fields|
    ensures var f := schema[k].fields[i];
            Set(schema, config, k, setter, f.key, v)
            == if Accepts(f.kind, setter) then config[Name(k, f.key) := Store(f.kind, v)] else config
  {
    LookupExact(schema[k].fields, i, setter);
  }

  lemma AssignIsUpdate(schema: Schema, st: ParseState, i: nat, v: Value, overflow: Overflow)
    requires st.section < |schema| && WellFormedSection(schema[st.section]) && i < |schema[st.section].fields|
    ensures var f := schema[st.section].fields[i];
            Assign(schema, st, f.key, Trimmed(Show(v)), overflow)
            == st.(config := Put(st.config, Name(st.section, f.key), Reload(f, v, overflow)))
  {
    match GuessType(Trimmed(Show(v)))
    case IsBool(b) => SetExact(schema, st.config, st.section, i, SetBool, B(b));
    case IsInt(digits) => SetExact(schema, st.config, st.section, i, SetInt, N(Atoi(digits, overflow)));
    case IsString(s) => SetExact(schema, st.config, st.section, i, SetString, S(s));
  }

  lemma MemberParses(schema: Schema, st: ParseState, i: nat, v: Value, overflow: Overflow)
    requires st.section < |schema| && WellFormedSection(schema[st.section]) && i < |schema[st.section].fields|
    requires '\n' !in Show(v) && '\0' !in Show(v)
    ensures var f := schema[st.section].fields[i];
            ParseLine(schema, st, FieldLine(f, v) + ['\n'], overflow)
            == st.(config := Put(st.config, Name(st.section, f.key), Reload(f, v, overflow)))
  {
    FieldLineParses(schema, st, schema[st.section].fields[i].key, Show(v), overflow);
    AssignIsUpdate(schema, st, i, v, overflow);
  }

  lemma {:induction false} FindSectionExact(schema: Schema, k: nat)
    requires k < |schema| && forall j :: 0 <= j < |schema| ==> IsIdent(schema[j].name)
    requires forall a, b :: 0 <= a < b < |schema| ==> schema[a].name != schema[b].name
    ensures FindSection(schema, schema[k].name) == k
  {
    IdentIsLower(schema[0].name);
    IdentIsLower(schema[k].name);
    if k > 0 {
      FindSectionExact(schema[1..], k - 1);
    }
  }

  lemma NewlineTrimmed(line: string)
    requires |line| > 1 && !IsSpace(line[|line| - 1])
    ensures DropTrailing(line + ['\n'], IsSpace) == line
  {}

  lemma WholeLineKept(text: string)
    requires |text| > 1 && '\0' !in text && '#' !in text && !IsBlank(text[0]) && !IsSpace(text[|text| - 1])
    ensures Stripped(text + ['\n']) == text
  {
    var line := text + ['\n'];
    UntilAbsent(line, '\0');
    UntilAbsent(line, '#');
    assert line[0] == text[0] && DropBlanks(line) == line;
    NewlineTrimmed(text);
  }

  lemma HeaderNamed(name: string)
    requires IsIdent(name)
    ensures var header := "[" + name + "]";
            |header| > 1 && header[0] == '[' && header[|header| - 1] == ']' && ']' in header
            && '\0' !in header && '#' !in header
            && Until(header, ']')[1..] == name
  {}

  lemma HeaderParses(schema: Schema, st: ParseState, k: nat, overflow: Overflow)
    requires WellFormed(schema, overflow) && st.section < |schema| && k < |schema|
    ensures ParseLine(schema, st, HeaderLine(schema[k]) + ['\n'], overflow) == st.(section := k)
  {
    assert WellFormedSection(schema[k]);
    HeaderNamed(schema[k].name);
    WholeLineKept(HeaderLine(schema[k]));
    FindSectionExact(schema, k);
  }

  // --- the whole file --------------------------------------------------------------------

  predicate IsLine(line: string) { '\n' !in line && |line| < MAX_LINE }

  function ParseLines(schema: Schema, st: ParseState, lines: seq<string>, overflow: Overflow): (r: ParseState)
    requires st.section < |schema|
    ensures r.section < |schema|
    decreases |lines|
  {
    if lines == [] then st
    else ParseLines(schema, ParseLine(schema, st, lines[0] + ['\n'], overflow), lines[1..], overflow)
  }

  /** fgets hands the lines of a text without overlong lines over one at a time. */
  lemma {:induction false} ReadsLineByLine(schema: Schema, st: ParseState, lines: seq<string>, overflow: Overflow)
    requires st.section < |schema| && forall i :: 0 <= i < |lines| ==> IsLine(lines[i])
    ensures ParseText(schema, st, Joined(lines), overflow) == ParseLines(schema, st, lines, overflow)
    decreases |lines|
  {
    if lines != [] {
      var line, rest := lines[0], Joined(lines[1..]);
      var text := Joined(lines);
      assert IsLine(line);
      LineLengthOfLine(line, rest, MAX_LINE);
      assert text[..|line| + 1] == line + ['\n'] && text[|line| + 1..] == rest;
      ReadsLineByLine(schema, ParseLine(schema, st, line + ['\n'], overflow), lines[1..], overflow);
    }
  }

  lemma {:induction false} ParseLinesAppend(schema: Schema, st: ParseState, a: seq<string>, b: seq<string>, overflow: Overflow)
    requires st.section < |schema|
    ensures ParseLines(schema, st, a + b, overflow)
            == ParseLines(schema, ParseLines(schema, st, a, overflow), b, overflow)
    decreases |a|
  {
    if a == [] {
      assert a + b == b;
    } else {
      assert (a + b)[1..] == a[1..] + b;
      ParseLinesAppend(schema, ParseLine(schema, st, a[0] + ['\n'], overflow), a[1..], b, overflow);
    }
  }

  /** No string of the configuration holds a newline. */
  ghost predicate OneLineEach(config: Config) {
    forall n :: n in config && config[n].S? ==> '\n' !in config[n].s
  }

  ghost predicate WritableField(f: Field, k: nat, saved: Config) {
    Name(k, f.key) in saved && IsIdent(f.key)
    && '\n' !in Show(saved[Name(k, f.key)]) && '\0' !in Show(saved[Name(k, f.key)])
    && |Show(saved[Name(k, f.key)])| <= 255
  }

  /** The members of one section, in order, applied to a configuration. */
  function Replayed(fields: seq<Field>, k: nat, saved: Config, config: Config, reload: Reloader): Config
    requires forall f :: f in fields ==> Name(k, f.key) in saved
  {
    if fields == [] then config else
    var name := Name(k, fields[0].key);
    Replayed(fields[1..], k, saved, Put(config, name, reload(fields[0], saved[name])), reload)
  }

  lemma {:induction false} SectionParses(schema: Schema, k: nat, i: nat, saved: Config, st: ParseState, overflow: Overflow)
    requires k < |schema| && st.section == k && WellFormedSection(schema[k]) && i <= |schema[k].fields|
    requires forall f :: f in schema[k].fields ==> WritableField(f, k, saved)
    ensures var rest := schema[k].fields[i..];
            && (forall f :: f in rest ==> Name(k, f.key) in saved)
            && ParseLines(schema, st, FieldLines(rest, k, saved), overflow)
               == ParseState(Replayed(rest, k, saved, st.config, ReloadWith(overflow)), k)
    decreases |schema[k].fields| - i
  {
    var fields := schema[k].fields;
    var rest := fields[i..];
    assert forall f :: f in rest ==> f in fields;
    if i < |fields| {
      assert rest[0] == fields[i] && rest[1..] == fields[i + 1..];
      var name := Name(k, fields[i].key);
      assert WritableField(fields[i], k, saved);
      MemberParses(schema, st, i, saved[name], overflow);
      SectionParses(schema, k, i + 1, saved, st.(config := Put(st.config, name, Reload(fields[i], saved[name], overflow))), overflow);
    }
  }

  lemma {:induction false} FieldLinesAreLines(fields: seq<Field>, k: nat, saved: Config)
    requires forall f :: f in fields ==> WritableField(f, k, saved)
    ensures forall f :: f in fields ==> Name(k, f.key) in saved
    ensures forall i :: 0 <= i < |FieldLines(fields, k, saved)| ==> IsLine(FieldLines(fields, k, saved)[i])
  {
    assert forall f :: f in fields && WritableField(f, k, saved) ==> Name(k, f.key) in saved;
    if fields != [] {
      var f := fields[0];
      assert WritableField(f, k, saved);
      var x := Show(saved[Name(k, f.key)]);
      assert WritableField(f, k, saved);
      assert '\n' !in f.key + " = " + x;
      assert IsLine(FieldLine(f, saved[Name(k, f.key)]));
      FieldLinesAreLines(fields[1..], k, saved);
    }
  }

  /** What a member holds after a load: what its line stored, or what was there before. */
  function Reloaded(f: Field, v: Value, before: Value, reload: Reloader): Value {
    match reload(f, v)
    case None => before
    case Some(x) => x
  }

  /** A replay leaves every other member alone. */
  lemma {:induction false} ReplayedElsewhere(fields: seq<Field>, k: nat, saved: Config, config: Config, n: Name, reload: Reloader)
    requires forall f :: f in fields ==> Name(k, f.key) in saved && Name(k, f.key) != n && Name(k, f.key) in config
    ensures var r := Replayed(fields, k, saved, config, reload);
            r.Keys == config.Keys && (n in config ==> r[n] == config[n])
  {
    if fields != [] {
      var name := Name(k, fields[0].key);
      ReplayedElsewhere(fields[1..], k, saved, Put(config, name, reload(fields[0], saved[name])), n, reload);
    }
  }

  /** After the replay each member of the section holds its reloaded value. */
  lemma {:induction false} ReplayedAt(fields: seq<Field>, k: nat, saved: Config, config: Config, i: nat, reload: Reloader)
    requires i < |fields| && forall f :: f in fields ==> Name(k, f.key) in saved && Name(k, f.key) in config
    requires forall a, b :: 0 <= a < b < |fields| ==> fields[a].key != fields[b].key
    ensures var n, r := Name(k, fields[i].key), Replayed(fields, k, saved, config, reload);
            n in r && r[n] == Reloaded(fields[i], saved[n], config[n], reload)
  {
    var name := Name(k, fields[0].key);
    var next := Put(config, name, reload(fields[0], saved[name]));
    if i == 0 {
      ReplayedElsewhere(fields[1..], k, saved, next, name, reload);
    } else {
      ReplayedAt(fields[1..], k, saved, next, i - 1, reload);
    }
  }

  ghost predicate WritableFrom(schema: Schema, k: nat, saved: Config) {
    forall j, f :: k <= j < |schema| && f in schema[j].fields ==> WritableField(f, j, saved)
  }

  function ReplayedFrom(schema: Schema, k: nat, saved: Config, config: Config, reload: Reloader): Config
    requires k <= |schema| && Covers(schema, saved)
    decreases |schema| - k
  {
    if k == |schema| then config
    else ReplayedFrom(schema, k + 1, saved, Replayed(schema[k].fields, k, saved, config, reload), reload)
  }

  lemma SectionBlockParses(schema: Schema, k: nat, saved: Config, st: ParseState, overflow: Overflow)
    requires WellFormed(schema, overflow) && k < |schema| && Covers(schema, saved) && WritableFrom(schema, 0, saved)
    requires st.section < |schema|
    ensures ParseLines(schema, st, [HeaderLine(schema[k])] + FieldLines(schema[k].fields, k, saved), overflow)
            == ParseState(Replayed(schema[k].fields, k, saved, st.config, ReloadWith(overflow)), k)
  {
    var header, body := [HeaderLine(schema[k])], FieldLines(schema[k].fields, k, saved);
    ParseLinesAppend(schema, st, header, body, overflow);
    HeaderParses(schema, st, k, overflow);
    var entered := st.(section := k);
    assert header[1..] == [];
    assert ParseLines(schema, st, header, overflow) == entered;
    assert schema[k].fields[0..] == schema[k].fields;
    forall f | f in schema[k].fields ensures WritableField(f, k, saved) {
    }
    SectionParses(schema, k, 0, saved, entered, overflow);
  }

  lemma GapParses(schema: Schema, st: ParseState, gap: seq<string>, overflow: Overflow)
    requires st.section < |schema| && (gap == [] || gap == [""])
    ensures ParseLines(schema, st, gap, overflow) == st
  {}

  lemma {:induction false} SectionsParse(schema: Schema, k: nat, saved: Config, st: ParseState, overflow: Overflow)
    requires WellFormed(schema, overflow) && k <= |schema| && Covers(schema, saved) && WritableFrom(schema, 0, saved)
    requires st.section < |schema|
    ensures ParseLines(schema, st, SectionLines(schema, k, saved), overflow).config
            == ReplayedFrom(schema, k, saved, st.config, ReloadWith(overflow))
    decreases |schema| - k
  {
    if k < |schema| {
      var block := [HeaderLine(schema[k])] + FieldLines(schema[k].fields, k, saved);
      var gap := if k + 1 < |schema| then [""] else [];
      var after := ParseState(Replayed(schema[k].fields, k, saved, st.config, ReloadWith(overflow)), k);
      SectionBlockParses(schema, k, saved, st, overflow);
      ParseLinesAppend(schema, st, block + gap, SectionLines(schema, k + 1, saved), overflow);
      ParseLinesAppend(schema, st, block, gap, overflow);
      GapParses(schema, after, gap, overflow);
      SectionsParse(schema, k + 1, saved, after, overflow);
    }
  }

  lemma {:induction false} SectionLinesAreLines(schema: Schema, k: nat, saved: Config, overflow: Overflow)
    requires WellFormed(schema, overflow) && k <= |schema| && Covers(schema, saved) && WritableFrom(schema, 0, saved)
    ensures forall i :: 0 <= i < |SectionLines(schema, k, saved)| ==> IsLine(SectionLines(schema, k, saved)[i])
    decreases |schema| - k
  {
    if k < |schema| {
      assert WellFormedSection(schema[k]);
      assert IsLine(HeaderLine(schema[k]));
      forall f | f in schema[k].fields ensures WritableField(f, k, saved) {
      }
      FieldLinesAreLines(schema[k].fields, k, saved);
      SectionLinesAreLines(schema, k + 1, saved, overflow);
    }
  }

  ghost predicate KeysApart(schema: Schema) {
    forall k :: 0 <= k < |schema| ==>
      forall a, b :: 0 <= a < b < |schema[k].fields| ==> schema[k].fields[a].key != schema[k].fields[b].key
  }

  lemma WellFormedKeysApart(schema: Schema, overflow: Overflow)
    requires WellFormed(schema, overflow)
    ensures KeysApart(schema)
  {
    forall k | 0 <= k < |schema|
      ensures forall a, b :: 0 <= a < b < |schema[k].fields| ==> schema[k].fields[a].key != schema[k].fields[b].key {
      assert WellFormedSection(schema[k]);
    }
  }

  /** Replaying section k touches the members of that section only. */
  lemma ReplayedSectionAt(schema: Schema, k: nat, j: nat, i: nat, saved: Config, config: Config, reload: Reloader)
    requires KeysApart(schema) && k < |schema| && j < |schema| && i < |schema[j].fields|
    requires Covers(schema, saved) && Covers(schema, config)
    ensures var f, r := schema[j].fields[i], Replayed(schema[k].fields, k, saved, config, reload);
            var n := Name(j, f.key);
            r.Keys == config.Keys && n in r && r[n] == if j == k then Reloaded(f, saved[n], config[n], reload) else config[n]
  {
    var fields := schema[k].fields;
    ReplayedElsewhere(fields, k, saved, config, Name(k + 1, ""), reload);
    if j == k {
      ReplayedAt(fields, k, saved, config, i, reload);
    } else {
      ReplayedElsewhere(fields, k, saved, config, Name(j, schema[j].fields[i].key), reload);
    }
  }

  lemma {:induction false} ReplayedFromAt(schema: Schema, k: nat, j: nat, i: nat, saved: Config, config: Config, reload: Reloader)
    requires KeysApart(schema) && k <= |schema| && j < |schema| && i < |schema[j].fields|
    requires Covers(schema, saved) && Covers(schema, config)
    ensures var f, r := schema[j].fields[i], ReplayedFrom(schema, k, saved, config, reload);
            var n := Name(j, f.key);
            && r.Keys == config.Keys
            && r[n] == if j < k then config[n] else Reloaded(f, saved[n], config[n], reload)
    decreases |schema| - k
  {
    if k < |schema| {
      ReplayedSectionAt(schema, k, j, i, saved, config, reload);
      ReplayedFromAt(schema, k + 1, j, i, saved, Replayed(schema[k].fields, k, saved, config, reload), reload);
    }
  }

  /** What config_load makes of what config_save wrote, over a configuration d. */
  function LoadOfSave(schema: Schema, saved: Config, d: Config, overflow: Overflow): Config
    requires schema != [] && Covers(schema, saved)
  {
    ParseText(schema, ParseState(d, 0), Joined(FileLines(schema, saved)), overflow).config
  }

  lemma TypedIsWritable(schema: Schema, saved: Config, overflow: Overflow)
    requires WellFormed(schema, overflow) && TypedConfig(schema, saved) && OneLineEach(saved)
    ensures Covers(schema, saved) && WritableFrom(schema, 0, saved)
  {
    forall j, f | 0 <= j < |schema| && f in schema[j].fields ensures WritableField(f, j, saved) {
      assert WellFormedSection(schema[j]);
      ShownIsPlain(f, saved[Name(j, f.key)]);
    }
  }

  lemma FrontParses(schema: Schema, st: ParseState, overflow: Overflow)
    requires st.section < |schema|
    ensures ParseLines(schema, st, ["# 5G UE Simulation Configuration File", ""], overflow) == st
  {}

  lemma FileLinesAreLines(schema: Schema, saved: Config, overflow: Overflow)
    requires WellFormed(schema, overflow) && Covers(schema, saved) && WritableFrom(schema, 0, saved)
    ensures forall i :: 0 <= i < |FileLines(schema, saved)| ==> IsLine(FileLines(schema, saved)[i])
  {
    SectionLinesAreLines(schema, 0, saved, overflow);
    assert IsLine("# 5G UE Simulation Configuration File") && IsLine("");
  }

  /** The file, parsed, replays the members section by section. */
  lemma LoadReplays(schema: Schema, saved: Config, d: Config, overflow: Overflow)
    requires WellFormed(schema, overflow) && TypedConfig(schema, saved) && OneLineEach(saved)
    ensures Covers(schema, saved)
    ensures LoadOfSave(schema, saved, d, overflow) == ReplayedFrom(schema, 0, saved, d, ReloadWith(overflow))
  {
    TypedIsWritable(schema, saved, overflow);
    var st := ParseState(d, 0);
    FileLinesAreLines(schema, saved, overflow);
    ReadsLineByLine(schema, st, FileLines(schema, saved), overflow);
    ParseLinesAppend(schema, st, ["# 5G UE Simulation Configuration File", ""], SectionLines(schema, 0, saved), overflow);
    FrontParses(schema, st, overflow);
    SectionsParse(schema, 0, saved, st, overflow);
  }

  /** Member by member: the value its line stores, else the default. */
  lemma LoadedMember(schema: Schema, saved: Config, d: Config, j: nat, i: nat, overflow: Overflow)
    requires WellFormed(schema, overflow) && TypedConfig(schema, saved) && OneLineEach(saved) && HoldsDefaults(schema, d)
    requires j < |schema| && i < |schema[j].fields|
    ensures Covers(schema, saved)
    ensures var f := schema[j].fields[i];
            var n, r := Name(j, f.key), LoadOfSave(schema, saved, d, overflow);
            && r.Keys == d.Keys && n in r
            && r[n] == Reloaded(f, saved[n], f.default, ReloadWith(overflow))
            && (r[n] == saved[n] <==> Survives(f, saved[n], overflow) || saved[n] == f.default)
  {
    LoadReplays(schema, saved, d, overflow);
    WellFormedKeysApart(schema, overflow);
    ReplayedFromAt(schema, 0, j, i, saved, d, ReloadWith(overflow));
    var f := schema[j].fields[i];
    assert f in schema[j].fields;
    var v := saved[Name(j, f.key)];
    TypedIsWritable(schema, saved, overflow);
    assert WritableField(f, j, saved);
    ReloadIsIdentityIff(f, v, overflow);
    assert KeepsDefault(f, overflow);
  }

  // --- strings with newlines never come back ------------------------------------------------

  predicate NewlineOnlyLast(s: string) {
    forall i :: 0 <= i < |s| - 1 ==> s[i] != '\n'
  }

  lemma DroppedBlanksNewline(s: string)
    requires NewlineOnlyLast(s)
    ensures NewlineOnlyLast(DropBlanks(s))
  {}

  lemma PrefixNewlineOnlyLast(s: string, t: string)
    requires NewlineOnlyLast(s) && t <= s
    ensures NewlineOnlyLast(t)
  {}

  /** Trimming removes the one newline fgets leaves, unless nothing else is on the line. */
  lemma TrimmedPairHasNoNewline(body: string)
    requires NewlineOnlyLast(body)
    ensures var r := DropTrailing(body, IsSpace); '=' in r ==> '\n' !in r
  {}

  lemma CutHasNoNewline(line: string)
    requires NewlineOnlyLast(line)
    ensures '=' in Stripped(line) ==> '\n' !in Stripped(line)
  {
    var head := Until(line, '\0');
    PrefixNewlineOnlyLast(line, head);
    PrefixNewlineOnlyLast(head, Until(head, '#'));
    DroppedBlanksNewline(Until(head, '#'));
    TrimmedPairHasNoNewline(DropBlanks(Until(head, '#')));
  }

  lemma AssignKeepsOneLine(schema: Schema, st: ParseState, key: string, value: string, overflow: Overflow)
    requires st.section < |schema| && OneLineEach(st.config) && '\n' !in value
    ensures OneLineEach(Assign(schema, st, key, value, overflow).config)
  {}

  lemma LineKeepsOneLine(schema: Schema, st: ParseState, line: string, overflow: Overflow)
    requires st.section < |schema| && OneLineEach(st.config)
    requires NewlineOnlyLast(line)
    ensures OneLineEach(ParseLine(schema, st, line, overflow).config)
  {
    CutHasNoNewline(line);
    var start := Stripped(line);
    if start != [] && start[0] != '[' && '=' in start {
      var left := Until(start, '=');
      var right := start[|left| + 1..];
      DropBlanksShape(right);
      assert '\n' !in DropBlanks(right);
      AssignKeepsOneLine(schema, st, DropTrailing(left, IsBlank), DropBlanks(right), overflow);
    }
  }

  /** Whatever the text, no parsed string holds a newline. */
  lemma {:induction false} ParsedStringsAreOneLine(schema: Schema, st: ParseState, text: string, overflow: Overflow)
    requires st.section < |schema| && OneLineEach(st.config)
    ensures OneLineEach(ParseText(schema, st, text, overflow).config)
    decreases |text|
  {
    if text != [] {
      var n := LineLength(text, MAX_LINE);
      LineKeepsOneLine(schema, st, text[..n], overflow);
      ParsedStringsAreOneLine(schema, ParseLine(schema, st, text[..n], overflow), text[n..], overflow);
    }
  }

  // --- the round trip ---------------------------------------------------------------------

  ghost predicate ComesBack(schema: Schema, saved: Config, overflow: Overflow)
    requires Covers(schema, saved)
  {
    forall k, f :: 0 <= k < |schema| && f in schema[k].fields ==>
      Survives(f, saved[Name(k, f.key)], overflow) || saved[Name(k, f.key)] == f.default
  }

  lemma DefaultsAreOneLine(schema: Schema, d: Config, overflow: Overflow)
    requires WellFormed(schema, overflow) && HoldsDefaults(schema, d)
    ensures OneLineEach(d)
  {}

  lemma ComesBackIsOneLine(schema: Schema, saved: Config, overflow: Overflow)
    requires WellFormed(schema, overflow) && TypedConfig(schema, saved) && ComesBack(schema, saved, overflow)
    ensures OneLineEach(saved)
  {}

  lemma SameKeys(schema: Schema, saved: Config, d: Config)
    requires TypedConfig(schema, saved) && HoldsDefaults(schema, d)
    ensures saved.Keys == d.Keys
  {}

  lemma OnlySurvivorsComeBack(schema: Schema, saved: Config, d: Config, overflow: Overflow)
    requires WellFormed(schema, overflow) && TypedConfig(schema, saved) && HoldsDefaults(schema, d)
    requires Covers(schema, saved) && LoadOfSave(schema, saved, d, overflow) == saved
    ensures ComesBack(schema, saved, overflow)
  {
    DefaultsAreOneLine(schema, d, overflow);
    ParsedStringsAreOneLine(schema, ParseState(d, 0), Joined(FileLines(schema, saved)), overflow);
    forall k, f | 0 <= k < |schema| && f in schema[k].fields
      ensures Survives(f, saved[Name(k, f.key)], overflow) || saved[Name(k, f.key)] == f.default
    {
      var i :| 0 <= i < |schema[k].fields| && schema[k].fields[i] == f;
      LoadedMember(schema, saved, d, k, i, overflow);
    }
  }

  /** The schema entry behind a name of the configuration. */
  lemma EntryOf(schema: Schema, saved: Config, n: Name) returns (i: nat)
    requires TypedConfig(schema, saved) && n in saved
    ensures n.section < |schema| && i < |schema[n.section].fields|
    ensures Name(n.section, schema[n.section].fields[i].key) == n
  {
    var f :| f in schema[n.section].fields && f.key == n.key;
    i :| 0 <= i < |schema[n.section].fields| && schema[n.section].fields[i] == f;
  }

  lemma SurvivorComesBack(schema: Schema, saved: Config, d: Config, n: Name, overflow: Overflow)
    requires WellFormed(schema, overflow) && TypedConfig(schema, saved) && HoldsDefaults(schema, d)
    requires Covers(schema, saved) && ComesBack(schema, saved, overflow) && n in saved
    ensures n in LoadOfSave(schema, saved, d, overflow) && LoadOfSave(schema, saved, d, overflow)[n] == saved[n]
  {
    ComesBackIsOneLine(schema, saved, overflow);
    var i := EntryOf(schema, saved, n);
    var f := schema[n.section].fields[i];
    assert f in schema[n.section].fields;
    LoadedMember(schema, saved, d, n.section, i, overflow);
  }

  lemma SameMaps(a: Config, b: Config)
    requires a.Keys == b.Keys && forall n :: n in a ==> a[n] == b[n]
    ensures a == b
  {}

  lemma SurvivorsComeBack(schema: Schema, saved: Config, d: Config, overflow: Overflow)
    requires WellFormed(schema, overflow) && TypedConfig(schema, saved) && HoldsDefaults(schema, d)
    requires Covers(schema, saved) && ComesBack(schema, saved, overflow)
    ensures LoadOfSave(schema, saved, d, overflow) == saved
  {
    var r := LoadOfSave(schema, saved, d, overflow);
    assert r.Keys == saved.Keys by {
      ComesBackIsOneLine(schema, saved, overflow);
      LoadKeepsKeys(schema, saved, d, overflow);
      SameKeys(schema, saved, d);
    }
    forall n | n in saved ensures r[n] == saved[n] {
      SurvivorComesBack(schema, saved, d, n, overflow);
    }
    SameMaps(saved, r);
  }

  /**
   The round trip, exactly: a saved configuration is loaded back unchanged if and only if
   every member survives its own line or holds its default.
   */
  lemma RoundTripIff(schema: Schema, saved: Config, d: Config, overflow: Overflow)
    requires WellFormed(schema, overflow) && TypedConfig(schema, saved) && HoldsDefaults(schema, d)
    ensures Covers(schema, saved)
    ensures LoadOfSave(schema, saved, d, overflow) == saved <==> ComesBack(schema, saved, overflow)
  {
    if ComesBack(schema, saved, overflow) {
      SurvivorsComeBack(schema, saved, d, overflow);
    } else if LoadOfSave(schema, saved, d, overflow) == saved {
      OnlySurvivorsComeBack(schema, saved, d, overflow);
    }
  }

  lemma LoadKeepsKeys(schema: Schema, saved: Config, d: Config, overflow: Overflow)
    requires WellFormed(schema, overflow) && TypedConfig(schema, saved) && OneLineEach(saved) && HoldsDefaults(schema, d)
    ensures Covers(schema, saved) && LoadOfSave(schema, saved, d, overflow).Keys == d.Keys
  {
    LoadReplays(schema, saved, d, overflow);
    ReplayKeepsKeys(schema, 0, saved, d, overflow);
  }

  lemma {:induction false} ReplayKeepsKeys(schema: Schema, k: nat, saved: Config, config: Config, overflow: Overflow)
    requires k <= |schema| && Covers(schema, saved) && Covers(schema, config)
    ensures ReplayedFrom(schema, k, saved, config, ReloadWith(overflow)).Keys == config.Keys
    decreases |schema| - k
  {
    if k < |schema| {
      ReplayedElsewhere(schema[k].fields, k, saved, config, Name(k + 1, ""), ReloadWith(overflow));
      ReplayKeepsKeys(schema, k + 1, saved, Replayed(schema[k].fields, k, saved, config, ReloadWith(overflow)), overflow);
    }
  }
}
