/**
 The command history (src/cli/cli_script.c): a ring of 100 strings. It is proved to be the
 last 100 elements of a plain list of the commands in which repeats have been collapsed.
 */
module History {
  import opened Wrappers

  const MAX_HISTORY: nat := 100

  datatype Op = Add(command: string) | Clear

  /** The specification: the list of commands since the last clear, oldest first. */
  function Recorded(list: seq<string>, op: Op): seq<string> {
    match op
    case Clear => []
    case Add(c) => if c == "" || (list != [] && list[|list| - 1] == c) then list else list + [c]
  }

  function RecordedAll(list: seq<string>, ops: seq<Op>): seq<string>
    decreases |ops|
  {
    if ops == [] then list else RecordedAll(Recorded(list, ops[0]), ops[1..])
  }

  function Last(list: seq<string>, n: nat): seq<string> {
    if |list| <= n then list else list[|list| - n..]
  }

  /** Without a clear, the list is the non-empty commands with consecutive repeats collapsed. */
  function Collapsed(commands: seq<string>): seq<string> {
    if commands == [] then [] else
    var n := |commands| - 1;
    var rest := Collapsed(commands[..n]);
    if commands[n] == "" || (rest != [] && rest[|rest| - 1] == commands[n]) then rest else rest + [commands[n]]
  }

  lemma {:induction false} RecordedIsCollapsed(commands: seq<string>)
    ensures RecordedAll([], Adds(commands)) == Collapsed(commands)
  {
    if commands != [] {
      var n := |commands| - 1;
      RecordedIsCollapsed(commands[..n]);
      assert Adds(commands) == Adds(commands[..n]) + [Add(commands[n])];
      RecordedAppend([], Adds(commands[..n]), Add(commands[n]));
    }
  }

  function Adds(commands: seq<string>): (r: seq<Op>)
    ensures |r| == |commands| && forall i :: 0 <= i < |r| ==> r[i] == Add(commands[i])
  {
    seq(|commands|, i requires 0 <= i < |commands| => Add(commands[i]))
  }

  lemma {:induction false} RecordedAppend(list: seq<string>, ops: seq<Op>, op: Op)
    ensures RecordedAll(list, ops + [op]) == Recorded(RecordedAll(list, ops), op)
    decreases |ops|
  {
    if ops == [] {
      assert ([op])[1..] == [];
    } else {
      assert (ops + [op])[1..] == ops[1..] + [op];
      RecordedAppend(Recorded(list, ops[0]), ops[1..], op);
    }
  }

  lemma {:induction false} RecordedConcat(list: seq<string>, a: seq<Op>, b: seq<Op>)
    ensures RecordedAll(list, a + b) == RecordedAll(RecordedAll(list, a), b)
    decreases |a|
  {
    if a == [] {
      assert a + b == b;
    } else {
      assert (a + b)[1..] == a[1..] + b;
      RecordedConcat(Recorded(list, a[0]), a[1..], b);
    }
  }

  /** Whatever came before the last clear, the list is the collapsed commands added since. */
  lemma SinceLastClear(list: seq<string>, before: seq<Op>, commands: seq<string>)
    ensures RecordedAll(list, before + [Clear] + Adds(commands)) == Collapsed(commands)
  {
    RecordedConcat(list, before + [Clear], Adds(commands));
    RecordedAppend(list, before, Clear);
    RecordedIsCollapsed(commands);
  }

  function NonEmpty(commands: seq<string>): (r: seq<string>)
    ensures forall i :: 0 <= i < |r| ==> r[i] != ""
  {
    if commands == [] then [] else
    var n := |commands| - 1;
    NonEmpty(commands[..n]) + if commands[n] == "" then [] else [commands[n]]
  }

  function Times(c: string, k: nat): (r: seq<string>)
    ensures |r| == k && forall i :: 0 <= i < k ==> r[i] == c
  {
    seq(k, _ => c)
  }

  /** Element i of the list, counts[i] times over. */
  function Expand(list: seq<string>, counts: seq<nat>): seq<string>
    requires |list| == |counts|
  {
    if list == [] then [] else
    var n := |list| - 1;
    Expand(list[..n], counts[..n]) + Times(list[n], counts[n])
  }

  predicate NoRepeats(list: seq<string>) {
    && (forall i :: 0 <= i < |list| ==> list[i] != "")
    && (forall i :: 0 < i < |list| ==> list[i - 1] != list[i])
  }

  /** One way of reading `all` as runs of equal commands: the commands of the list, each at least once. */
  predicate RunsOf(list: seq<string>, counts: seq<nat>, all: seq<string>) {
    |counts| == |list| && (forall i :: 0 <= i < |counts| ==> counts[i] > 0) && Expand(list, counts) == all
  }

  lemma CollapsedAppend(all: seq<string>, c: string)
    ensures var rest := Collapsed(all);
            Collapsed(all + [c]) == if c == "" || (rest != [] && rest[|rest| - 1] == c) then rest else rest + [c]
  {
    assert (all + [c])[..|all|] == all;
  }

  /** One more of the last. */
  lemma LastRunGrows(list: seq<string>, counts: seq<nat>, all: seq<string>)
    requires list != [] && RunsOf(list, counts, all)
    ensures RunsOf(list, counts[|list| - 1 := counts[|list| - 1] + 1], all + [list[|list| - 1]])
  {
    var m := |list| - 1;
    var more := counts[m := counts[m] + 1];
    assert more[..m] == counts[..m];
    assert Times(list[m], counts[m] + 1) == Times(list[m], counts[m]) + [list[m]];
  }

  lemma NewRun(list: seq<string>, counts: seq<nat>, all: seq<string>, c: string)
    requires RunsOf(list, counts, all)
    ensures RunsOf(list + [c], counts + [1], all + [c])
  {
    assert (list + [c])[..|list|] == list && (counts + [1])[..|counts|] == counts && Times(c, 1) == [c];
  }

  lemma {:induction false} CollapsedHasRuns(commands: seq<string>) returns (counts: seq<nat>)
    ensures NoRepeats(Collapsed(commands)) && RunsOf(Collapsed(commands), counts, NonEmpty(commands))
  {
    counts := [];
    if commands != [] {
      var n := |commands| - 1;
      var rest, c := Collapsed(commands[..n]), commands[n];
      counts := CollapsedHasRuns(commands[..n]);
      if c == "" {
        assert NonEmpty(commands) == NonEmpty(commands[..n]);
      } else if rest != [] && rest[|rest| - 1] == c {
        LastRunGrows(rest, counts, NonEmpty(commands[..n]));
        counts := counts[|rest| - 1 := counts[|rest| - 1] + 1];
      } else {
        NewRun(rest, counts, NonEmpty(commands[..n]), c);
        counts := counts + [1];
      }
    }
  }

  lemma {:induction false} CollapsedAppendTimes(all: seq<string>, c: string, k: nat)
    requires c != "" && k > 0 && (Collapsed(all) == [] || Collapsed(all)[|Collapsed(all)| - 1] != c)
    ensures Collapsed(all + Times(c, k)) == Collapsed(all) + [c]
  {
    assert all + Times(c, k) == all + Times(c, k - 1) + [c];
    CollapsedAppend(all + Times(c, k - 1), c);
    if k == 1 {
      assert all + Times(c, 0) == all;
    } else {
      CollapsedAppendTimes(all, c, k - 1);
    }
  }

  lemma {:induction false} CollapsedOfRuns(list: seq<string>, counts: seq<nat>, all: seq<string>)
    requires NoRepeats(list) && RunsOf(list, counts, all)
    ensures Collapsed(all) == list
  {
    if list != [] {
      var n := |list| - 1;
      var rest := Expand(list[..n], counts[..n]);
      CollapsedOfRuns(list[..n], counts[..n], rest);
      CollapsedAppendTimes(rest, list[n], counts[n]);
    }
  }

  lemma {:induction false} CollapsedSkipsEmpty(commands: seq<string>)
    ensures Collapsed(NonEmpty(commands)) == Collapsed(commands)
  {
    if commands != [] {
      var n := |commands| - 1;
      CollapsedSkipsEmpty(commands[..n]);
      if commands[n] != "" {
        CollapsedAppend(NonEmpty(commands[..n]), commands[n]);
      } else {
        assert NonEmpty(commands) == NonEmpty(commands[..n]);
      }
    }
  }

  /**
   What collapsing means: the list has no two equal neighbours, and the non-empty commands are its elements in
   order, each one or more times over. No other list is that.
   */
  lemma CollapsedIff(commands: seq<string>, list: seq<string>)
    ensures list == Collapsed(commands) <==> NoRepeats(list) && exists counts :: RunsOf(list, counts, NonEmpty(commands))
  {
    var counts := CollapsedHasRuns(commands);
    assert RunsOf(Collapsed(commands), counts, NonEmpty(commands));
    if NoRepeats(list) && exists other :: RunsOf(list, other, NonEmpty(commands)) {
      var other :| RunsOf(list, other, NonEmpty(commands));
      CollapsedOfRuns(list, other, NonEmpty(commands));
      CollapsedSkipsEmpty(commands);
    }
  }

  /** Once the index has moved on, what was k - 1 back is k back. */
  lemma Shifted(index: nat, k: nat)
    requires index < MAX_HISTORY && k < MAX_HISTORY
    ensures var slot := ((index + 1) % MAX_HISTORY + MAX_HISTORY - 1 - k) % MAX_HISTORY;
            if k == 0 then slot == index else slot == (index + MAX_HISTORY - 1 - (k - 1)) % MAX_HISTORY != index
  {}

  class Ring {
    const slots: array<Option<string>>
    var index: nat
    var count: nat
    /** The list the ring stands for. */
    ghost var list: seq<string>

    /** Slot of the k-th most recent command. */
    function SlotOf(k: nat): nat
      requires k < MAX_HISTORY
      reads this
    {
      (index + MAX_HISTORY - 1 - k) % MAX_HISTORY
    }

    ghost predicate Valid()
      reads this, slots
    {
      && slots.Length == MAX_HISTORY && index < MAX_HISTORY
      && count == |Last(list, MAX_HISTORY)|
      && (forall k :: 0 <= k < count ==> slots[SlotOf(k)] == Some(list[|list| - 1 - k]))
    }

    constructor ()
      ensures Valid() && list == []
    {
      slots := new Option<string>[MAX_HISTORY](_ => None);
      index, count, list := 0, 0, [];
    }

    method AddCommand(command: Option<string>)
      requires Valid()
      modifies this, slots
      ensures Valid()
      ensures list == if command.None? then old(list) else Recorded(old(list), Add(command.value))
    {
      if command == None || command.value == "" {
        return;
      }
      var last := (index + MAX_HISTORY - 1) % MAX_HISTORY;
      if count > 0 && slots[last] == command {
        assert last == SlotOf(0);
        return;
      }
      assert count > 0 ==> slots[SlotOf(0)] == Some(list[|list| - 1]);
      Store(command.value);
    }

    method Store(command: string)
      requires Valid()
      modifies this, slots
      ensures Valid() && list == old(list) + [command]
    {
      slots[index] := Some(command);
      index := (index + 1) % MAX_HISTORY;
      if count < MAX_HISTORY {
        count := count + 1;
      }
      list := list + [command];
      forall k | 0 <= k < count ensures slots[SlotOf(k)] == Some(list[|list| - 1 - k]) {
        Shifted(old(index), k);
        if k > 0 {
          assert SlotOf(k) == old(SlotOf(k - 1)) != old(index);
        }
      }
    }

    /** Offset 0 is the most recent command. */
    method Get(offset: int) returns (command: Option<string>)
      requires Valid()
      ensures command == if 0 <= offset < |Last(list, MAX_HISTORY)| then Some(list[|list| - 1 - offset]) else None
    {
      if offset < 0 || offset >= count {
        return None;
      }
      command := slots[(index + MAX_HISTORY - 1 - offset) % MAX_HISTORY];
      assert command == slots[SlotOf(offset)];
    }

    method ClearAll()
      requires Valid()
      modifies this, slots
      ensures Valid() && list == Recorded(old(list), Clear)
    {
      var i := 0;
      while i < MAX_HISTORY
        invariant i <= MAX_HISTORY && slots.Length == MAX_HISTORY
      {
        slots[i] := None;
        i := i + 1;
      }
      count, index, list := 0, 0, [];
    }

    /** What cli_history_print writes: each command with its number, oldest first. */
    method Lines() returns (lines: seq<(nat, string)>)
      requires Valid()
      ensures |lines| == |Last(list, MAX_HISTORY)|
      ensures forall j :: 0 <= j < |lines| ==> lines[j] == (j + 1, Last(list, MAX_HISTORY)[j])
    {
      lines := [];
      var i := count - 1;
      while i >= 0
        invariant -1 <= i < count && |lines| == count - 1 - i
        invariant forall j :: 0 <= j < |lines| ==> lines[j] == (j + 1, Last(list, MAX_HISTORY)[j])
      {
        var slot := slots[(index + MAX_HISTORY - 1 - i) % MAX_HISTORY];
        assert slot == slots[SlotOf(i)];
        if slot != None {
          lines := lines + [(count - i, slot.value)];
        }
        i := i - 1;
      }
    }

    /** Any sequence of adds and clears leaves the list the specification builds. */
    method Replay(ops: seq<Op>)
      requires Valid()
      modifies this, slots
      ensures Valid() && list == RecordedAll(old(list), ops)
    {
      var i := 0;
      while i < |ops|
        invariant i <= |ops| && Valid()
        invariant RecordedAll(old(list), ops) == RecordedAll(list, ops[i..])
      {
        assert ops[i..][0] == ops[i] && ops[i..][1..] == ops[i + 1..];
        match ops[i] {
          case Add(c) => AddCommand(Some(c));
          case Clear => ClearAll();
        }
        i := i + 1;
      }
    }
  }
}
