/**
 * The pure list and map transformations of utils/parser_util.py: turning a
 * parsed namespace back into an argv list, looking up the destinations of
 * an argument group, overwriting arguments from a saved model's arguments,
 * and deriving the model-name and task-name choices.
 *
 * A namespace as `dir(args)` lists it, with `getattr` applied, is a
 * sequence of (name, value) pairs; a directory listing is a sequence of
 * entries; the members of the tasks module are a sequence of (name, object)
 * pairs.
 */
module ParserUtil {
  import opened Halving
  import opened Layers

  // ---------------------------------------------------------------------------
  // Sequence helpers
  // ---------------------------------------------------------------------------

  /** The entries of s that satisfy p, in order. */
  function Filter<T>(p: T -> bool, s: seq<T>): (r: seq<T>)
    ensures |r| <= |s|
    ensures forall i :: 0 <= i < |r| ==> r[i] in s && p(r[i])
  {
    if s == [] then [] else Filter(p, s[..|s| - 1]) + (if p(s[|s| - 1]) then [s[|s| - 1]] else [])
  }

  lemma {:induction false} FilterMembers<T>(p: T -> bool, s: seq<T>, x: T)
    ensures x in Filter(p, s) <==> x in s && p(x)
    decreases |s|
  {
    if s != [] {
      FilterMembers(p, s[..|s| - 1], x);
      assert s == s[..|s| - 1] + [s[|s| - 1]];
    }
  }

  /** Filtering a concatenation filters each part, keeping the parts in order. */
  lemma {:induction false} FilterAppend<T>(p: T -> bool, a: seq<T>, b: seq<T>)
    ensures Filter(p, a + b) == Filter(p, a) + Filter(p, b)
    decreases |b|
  {
    if b == [] {
      assert a + b == a;
    } else {
      assert (a + b)[..|a + b| - 1] == a + b[..|b| - 1];
      FilterAppend(p, a, b[..|b| - 1]);
    }
  }

  /** Python's `s.startswith('_')`. */
  predicate StartsWithUnderscore(s: string)
  {
    |s| >= 1 && s[0] == '_'
  }

  // ---------------------------------------------------------------------------
  // get_pass_through_args
  // ---------------------------------------------------------------------------

  /**
   * The scalar values a namespace holds. `str` of a float uses Python's
   * shortest round-trip formatting, which is not modelled: a float carries
   * the text `str` gives it.
   */
  datatype Atom = StrAtom(s: string) | IntAtom(i: int) | BoolAtom(b: bool) | NoneAtom | FloatAtom(text: string)

  /** An attribute value: a scalar or a list of scalars (`nargs="+"` options). */
  datatype Value = Scalar(a: Atom) | ListValue(items: seq<Atom>)

  /** The decimal digit for 0 <= d < 10. */
  function Digit(d: nat): char
    requires d < 10
  {
    "0123456789"[d]
  }

  /** `str(n)` for a natural number: decimal, no leading zeros. */
  function NatToString(n: nat): (r: string)
    ensures |r| >= 1 && r[0] != '-'
    ensures n < 10 ==> r == [Digit(n)]
    decreases n
  {
    if n < 10 then [Digit(n)] else NatToString(n / 10) + [Digit(n % 10)]
  }

  /** `str(v)` of a scalar. */
  function Str(a: Atom): string
  {
    match a
    case StrAtom(s) => s
    case IntAtom(i) => if i < 0 then "-" + NatToString(-i) else NatToString(i)
    case BoolAtom(b) => if b then "True" else "False"
    case NoneAtom => "None"
    case FloatAtom(t) => t
  }

  /** `str` of each list element, in order. */
  function Strs(items: seq<Atom>): (r: seq<string>)
    ensures |r| == |items|
    ensures forall i :: 0 <= i < |items| ==> r[i] == Str(items[i])
  {
    if items == [] then [] else Strs(items[..|items| - 1]) + [Str(items[|items| - 1])]
  }

  /** The strings one attribute value contributes: one per list element, or one for a scalar. */
  function ValueArgs(v: Value): seq<string>
  {
    match v
    case ListValue(items) => Strs(items)
    case Scalar(a) => [Str(a)]
  }

  /** What one kept attribute contributes: its flag, then its value strings. */
  function Emit(attr: (string, Value)): seq<string>
  {
    ["--" + attr.0] + ValueArgs(attr.1)
  }

  /** The contributions of the kept attributes, in order. */
  function Emitted(kept: seq<(string, Value)>): seq<string>
  {
    if kept == [] then [] else Emit(kept[0]) + Emitted(kept[1..])
  }

  /** `[arg for arg in dir(args) if not arg.startswith('_')]`, with each name's value. */
  function Kept(attrs: seq<(string, Value)>): (r: seq<(string, Value)>)
    ensures forall x :: x in r <==> x in attrs && !StartsWithUnderscore(x.0)
  {
    var p := (x: (string, Value)) => !StartsWithUnderscore(x.0);
    forall x ensures x in Filter(p, attrs) <==> x in attrs && p(x) {
      FilterMembers(p, attrs, x);
    }
    Filter(p, attrs)
  }

  /** The kept attributes of a concatenation are those of each part, in input order. */
  lemma {:induction false} KeptAppend(a: seq<(string, Value)>, b: seq<(string, Value)>)
    ensures Kept(a + b) == Kept(a) + Kept(b)
  {
    FilterAppend((x: (string, Value)) => !StartsWithUnderscore(x.0), a, b);
  }

  /** A single attribute is kept, unchanged, exactly when its name does not start with `_`. */
  lemma {:induction false} KeptSingle(x: (string, Value))
    ensures Kept([]) == []
    ensures Kept([x]) == if StartsWithUnderscore(x.0) then [] else [x]
  {
    assert [x][..0] == [];
  }

  /** The argv list `get_pass_through_args` returns. */
  function PassThrough(attrs: seq<(string, Value)>): seq<string>
  {
    Emitted(Kept(attrs))
  }

  lemma {:induction false} EmittedAppend(a: seq<(string, Value)>, b: seq<(string, Value)>)
    ensures Emitted(a + b) == Emitted(a) + Emitted(b)
    decreases |a|
  {
    if a == [] {
      assert a + b == b;
    } else {
      assert (a + b)[1..] == a[1..] + b;
      EmittedAppend(a[1..], b);
    }
  }

  /** The inner loop of `get_pass_through_args`: append `str(v)` for every element of a list value. */
  method AppendStrs(acc: seq<string>, items: seq<Atom>) returns (r: seq<string>)
    ensures r == acc + Strs(items)
  {
    r := acc;
    var j := 0;
    while j < |items|
      invariant j <= |items|
      invariant r == acc + Strs(items[..j])
    {
      assert items[..j + 1][..j] == items[..j];
      r := r + [Str(items[j])];
      j := j + 1;
    }
    assert items[..j] == items;
  }

  /** Emitting one more attribute appends its flag and value strings. */
  lemma {:induction false} EmittedStep(kept: seq<(string, Value)>, i: nat)
    requires i < |kept|
    ensures Emitted(kept[..i + 1]) == Emitted(kept[..i]) + Emit(kept[i])
  {
    SnocSlice(kept, i);
    EmittedSnoc(kept[..i], kept[i]);
  }

  lemma {:induction false} EmittedSnoc(kept: seq<(string, Value)>, attr: (string, Value))
    ensures Emitted(kept + [attr]) == Emitted(kept) + Emit(attr)
  {
    EmittedAppend(kept, [attr]);
    EmittedSingle(attr);
  }

  lemma {:induction false} EmittedSingle(attr: (string, Value))
    ensures Emitted([attr]) == Emit(attr)
  {
    assert [attr][1..] == [];
  }

  /** One iteration of `get_pass_through_args`: the flag, then the value strings. */
  method AppendAttr(acc: seq<string>, name: string, val: Value) returns (r: seq<string>)
    ensures r == acc + Emit((name, val))
  {
    r := acc + ["--" + name];
    if val.ListValue? {
      r := AppendStrs(r, val.items);
    } else {
      r := r + [Str(val.a)];
    }
  }

  /**
   * `get_pass_through_args(args)`: for every kept name, append `'--' + name`
   * and then `str` of each list element, or `str` of the scalar.
   */
  method GetPassThroughArgs(attrs: seq<(string, Value)>) returns (passThroughArgs: seq<string>)
    ensures passThroughArgs == PassThrough(attrs)
  {
    var parserArgs := Kept(attrs);
    passThroughArgs := EmitAll(parserArgs);
  }

  /** The loop of `get_pass_through_args` over the kept names. */
  method EmitAll(parserArgs: seq<(string, Value)>) returns (passThroughArgs: seq<string>)
    ensures passThroughArgs == Emitted(parserArgs)
  {
    passThroughArgs := [];
    var i := 0;
    while i < |parserArgs|
      invariant i <= |parserArgs|
      invariant passThroughArgs == Emitted(parserArgs[..i])
    {
      EmittedStep(parserArgs, i);
      passThroughArgs := AppendAttr(passThroughArgs, parserArgs[i].0, parserArgs[i].1);
      i := i + 1;
    }
    assert parserArgs[..i] == parserArgs;
  }

  /** The number of strings one kept attribute contributes: 1 + len(val) for a list, 2 otherwise. */
  function Width(attr: (string, Value)): nat
  {
    1 + (if attr.1.ListValue? then |attr.1.items| else 1)
  }

  /** The width of each kept attribute, in order. */
  function Widths(kept: seq<(string, Value)>): (r: seq<nat>)
    ensures |r| == |kept|
    ensures forall i :: 0 <= i < |kept| ==> r[i] == Width(kept[i])
  {
    if kept == [] then [] else [Width(kept[0])] + Widths(kept[1..])
  }

  /** One attribute's contribution: its flag first, then its value strings, Width(attr) strings in all. */
  lemma {:induction false} EmitParts(attr: (string, Value))
    ensures |Emit(attr)| == Width(attr)
    ensures Emit(attr)[0] == "--" + attr.0 && Emit(attr)[1..] == ValueArgs(attr.1)
  {
  }

  /** The output length is the sum over kept names of 1 + (len(val) if a list else 1). */
  lemma {:induction false} EmittedLength(kept: seq<(string, Value)>)
    ensures |Emitted(kept)| == Sum(Widths(kept))
    decreases |kept|
  {
    if kept != [] {
      EmittedLength(kept[1..]);
      EmitParts(kept[0]);
      SumPrepend(Width(kept[0]), Widths(kept[1..]));
    }
  }

  /** Where kept attribute i's flag lands: after the strings of the attributes before it. */
  function Offset(kept: seq<(string, Value)>, i: nat): nat
    requires i <= |kept|
  {
    Sum(Widths(kept[..i]))
  }

  /** The strings of kept attribute i sit between those of the attributes before and after it. */
  lemma {:induction false} EmittedSplit(kept: seq<(string, Value)>, i: nat)
    requires i < |kept|
    ensures Emitted(kept) == Emitted(kept[..i]) + Emit(kept[i]) + Emitted(kept[i + 1..])
  {
    assert kept == kept[..i + 1] + kept[i + 1..];
    EmittedAppend(kept[..i + 1], kept[i + 1..]);
    EmittedStep(kept, i);
  }

  /**
   * Kept attribute i contributes, in place, its own strings Emit(kept[i])
   * (`'--' + name` immediately followed by its value strings, Width(kept[i])
   * of them, as EmitParts states): the names appear in input order, each
   * with its own values.
   */
  lemma {:induction false} EmittedAt(kept: seq<(string, Value)>, i: nat)
    requires i < |kept|
    ensures Offset(kept, i) + |Emit(kept[i])| <= |Emitted(kept)|
    ensures Emitted(kept)[Offset(kept, i)..Offset(kept, i) + |Emit(kept[i])|] == Emit(kept[i])
  {
    EmittedSplit(kept, i);
    EmittedLength(kept[..i]);
    PieceAt(Emitted(kept), Emitted(kept[..i]), Emit(kept[i]), Emitted(kept[i + 1..]));
  }

  /** The middle piece of a three-way concatenation, read back by position. */
  lemma PieceAt<T>(all: seq<T>, pre: seq<T>, mid: seq<T>, post: seq<T>)
    requires all == pre + mid + post
    ensures |pre| + |mid| <= |all|
    ensures all[|pre|..|pre| + |mid|] == mid
  {
  }


  // ---------------------------------------------------------------------------
  // Reading an argv list back
  // ---------------------------------------------------------------------------

  /**
   * A token starting with `--`: the only kind of flag `get_pass_through_args`
   * writes. Single-dash option tokens are not modelled.
   */
  predicate IsFlag(s: string)
  {
    |s| >= 2 && s[0] == '-' && s[1] == '-'
  }

  /** The number of value tokens before the next flag. */
  function ValuesRun(s: seq<string>): (n: nat)
    ensures n <= |s|
  {
    if s == [] || IsFlag(s[0]) then 0 else 1 + ValuesRun(s[1..])
  }

  /** The (name, values) groups of an argv list: each token starts a group, with the value tokens after it. */
  function ParseArgv(argv: seq<string>): seq<(string, seq<string>)>
    decreases |argv|
  {
    if argv == [] then []
    else
      var n := ValuesRun(argv[1..]);
      [(if IsFlag(argv[0]) then argv[0][2..] else argv[0], argv[1..1 + n])] + ParseArgv(argv[1 + n..])
  }

  lemma {:induction false} ValuesRunOf(vals: seq<string>, tail: seq<string>)
    requires forall j :: 0 <= j < |vals| ==> !IsFlag(vals[j])
    requires tail == [] || IsFlag(tail[0])
    ensures ValuesRun(vals + tail) == |vals|
    decreases |vals|
  {
    if vals == [] {
      assert vals + tail == tail;
    } else {
      assert (vals + tail)[1..] == vals[1..] + tail;
      ValuesRunOf(vals[1..], tail);
    }
  }

  /** No string of vals looks like a flag. */
  predicate NoFlags(vals: seq<string>)
  {
    forall j :: 0 <= j < |vals| ==> !IsFlag(vals[j])
  }

  /** No value string of a kept attribute looks like a flag. */
  predicate NoFlagValues(kept: seq<(string, Value)>)
  {
    forall i :: 0 <= i < |kept| ==> NoFlags(ValueArgs(kept[i].1))
  }

  /** The (name, value strings) pairs an argv list is meant to carry. */
  function Groups(kept: seq<(string, Value)>): (r: seq<(string, seq<string>)>)
    ensures |r| == |kept|
    ensures forall i :: 0 <= i < |kept| ==> r[i] == (kept[i].0, ValueArgs(kept[i].1))
  {
    if kept == [] then [] else [(kept[0].0, ValueArgs(kept[0].1))] + Groups(kept[1..])
  }

  /** A flag followed by non-flag values and then by a flag (or nothing) reads back as one group. */
  lemma {:induction false} ParseGroup(name: string, vals: seq<string>, rest: seq<string>)
    requires NoFlags(vals)
    requires rest == [] || IsFlag(rest[0])
    ensures ParseArgv(["--" + name] + vals + rest) == [(name, vals)] + ParseArgv(rest)
  {
    var argv := ["--" + name] + vals + rest;
    ValuesRunOf(vals, rest);
    assert argv[1..] == vals + rest;
    assert argv[1..1 + |vals|] == vals;
    assert argv[1 + |vals|..] == rest;
    assert ("--" + name)[2..] == name;
  }

  /**
   * Round trip: when no value string looks like a flag, reading the argv
   * list back gives every kept name with exactly its value strings, in order.
   */
  lemma {:induction false} ParseEmitted(kept: seq<(string, Value)>)
    requires NoFlagValues(kept)
    ensures ParseArgv(Emitted(kept)) == Groups(kept)
    decreases |kept|
  {
    if kept != [] {
      var rest := Emitted(kept[1..]);
      assert NoFlagValues(kept[1..]) by {
        forall i | 0 <= i < |kept[1..]|
          ensures NoFlags(ValueArgs(kept[1..][i].1))
        {
          assert kept[1..][i] == kept[i + 1];
        }
      }
      ParseEmitted(kept[1..]);
      assert rest == [] || IsFlag(rest[0]) by {
        if kept[1..] != [] {
          assert rest[0] == "--" + kept[1..][0].0;
        }
      }
      assert NoFlags(ValueArgs(kept[0].1));
      ParseGroup(kept[0].0, ValueArgs(kept[0].1), rest);
    }
  }

  /** `str` of an int, a bool or None never looks like a flag; only strings and float text can. */
  lemma {:induction false} ScalarNotFlag(a: Atom)
    requires !a.StrAtom? && !a.FloatAtom?
    ensures !IsFlag(Str(a))
  {
    if a.IntAtom? && a.i < 0 {
      assert Str(a)[1] == NatToString(-a.i)[0];
    }
  }

  // ---------------------------------------------------------------------------
  // get_args_per_group_name
  // ---------------------------------------------------------------------------

  /** An argparse argument group: its title and the `dest` of each of its actions, in order. */
  datatype ActionGroup = ActionGroup(title: string, dests: seq<string>)

  /** What `get_args_per_group_name` returns: a list of names, or a ValueError object (returned, not raised). */
  datatype GroupLookup = Dests(names: seq<string>) | ReturnedValueError

  /** The keys of a dict built in order from s: repeated keys keep their first position. */
  function DictKeys(s: seq<string>): (r: seq<string>)
    ensures forall x :: x in r <==> x in s
  {
    if s == [] then []
    else
      var init := DictKeys(s[..|s| - 1]);
      assert forall x :: x in s <==> x in s[..|s| - 1] || x == s[|s| - 1] by {
        assert s == s[..|s| - 1] + [s[|s| - 1]];
      }
      if s[|s| - 1] in init then init else init + [s[|s| - 1]]
  }

  predicate Distinct(s: seq<string>)
  {
    forall i, j :: 0 <= i < j < |s| ==> s[i] != s[j]
  }

  /** The keys of a dict are distinct, and with distinct dests they are the dests in action order. */
  lemma {:induction false} DictKeysOrder(s: seq<string>)
    ensures Distinct(DictKeys(s))
    ensures Distinct(s) ==> DictKeys(s) == s
    decreases |s|
  {
    if s != [] {
      var init := s[..|s| - 1];
      DictKeysOrder(init);
      if Distinct(s) {
        assert Distinct(init);
        assert s[|s| - 1] !in init;
        assert s == init + [s[|s| - 1]];
      }
    }
  }

  /** The lookup from group j on. */
  function LookupFrom(groups: seq<ActionGroup>, groupName: string, j: nat): GroupLookup
    decreases |groups| - j
  {
    if j >= |groups| then ReturnedValueError
    else if groups[j].title == groupName then Dests(DictKeys(groups[j].dests))
    else LookupFrom(groups, groupName, j + 1)
  }

  /** `get_args_per_group_name(parser, args, group_name)`: the values looked up are dropped, only the keys are returned. */
  function ArgsPerGroupName(groups: seq<ActionGroup>, groupName: string): GroupLookup
  {
    LookupFrom(groups, groupName, 0)
  }

  /** `get_args_per_group_name`: the loop over the action groups with its early return. */
  method GetArgsPerGroupName(groups: seq<ActionGroup>, groupName: string) returns (r: GroupLookup)
    ensures r == ArgsPerGroupName(groups, groupName)
  {
    var i := 0;
    while i < |groups|
      invariant i <= |groups|
      invariant LookupFrom(groups, groupName, 0) == LookupFrom(groups, groupName, i)
    {
      if groups[i].title == groupName {
        return Dests(DictKeys(groups[i].dests));
      }
      i := i + 1;
    }
    r := ReturnedValueError;
  }

  /**
   * The lookup returns the keys of the first group with that title, and
   * returns a ValueError object exactly when no group has it.
   */
  lemma {:induction false} LookupFirstMatch(groups: seq<ActionGroup>, groupName: string, j: nat)
    requires j <= |groups|
    ensures LookupFrom(groups, groupName, j).ReturnedValueError? <==>
      forall i :: j <= i < |groups| ==> groups[i].title != groupName
    ensures forall i :: (j <= i < |groups| && groups[i].title == groupName &&
      (forall i' :: j <= i' < i ==> groups[i'].title != groupName)) ==>
        LookupFrom(groups, groupName, j) == Dests(DictKeys(groups[i].dests))
    decreases |groups| - j
  {
    if j < |groups| {
      LookupFirstMatch(groups, groupName, j + 1);
    }
  }

  /** `args_to_overwrite += ...` over group names from j on; extending a list by a ValueError object raises TypeError. */
  function OverwriteNamesFrom(groups: seq<ActionGroup>, groupNames: seq<string>, j: nat, acc: seq<string>): Result<seq<string>>
    decreases |groupNames| - j
  {
    if j >= |groupNames| then Ok(acc)
    else match ArgsPerGroupName(groups, groupNames[j])
      case ReturnedValueError => Err(NotIterable)
      case Dests(names) => OverwriteNamesFrom(groups, groupNames, j + 1, acc + names)
  }

  /** The names `parse_and_load_from_model` collects from its group names (`['seed', 'model']`). */
  function ArgsToOverwrite(groups: seq<ActionGroup>, groupNames: seq<string>): Result<seq<string>>
  {
    OverwriteNamesFrom(groups, groupNames, 0, [])
  }

  /** The loop of `parse_and_load_from_model` collecting `args_to_overwrite`. */
  method CollectArgsToOverwrite(groups: seq<ActionGroup>, groupNames: seq<string>) returns (r: Result<seq<string>>)
    ensures r == ArgsToOverwrite(groups, groupNames)
  {
    var argsToOverwrite: seq<string> := [];
    var i := 0;
    while i < |groupNames|
      invariant i <= |groupNames|
      invariant OverwriteNamesFrom(groups, groupNames, 0, []) == OverwriteNamesFrom(groups, groupNames, i, argsToOverwrite)
    {
      var names := GetArgsPerGroupName(groups, groupNames[i]);
      if names.ReturnedValueError? {
        return Err(NotIterable);
      }
      argsToOverwrite := argsToOverwrite + names.names;
      i := i + 1;
    }
    r := Ok(argsToOverwrite);
  }

  /** A group name that names no group makes the collection fail with TypeError, not ValueError. */
  lemma {:induction false} MissingGroupNotIterable(groups: seq<ActionGroup>, groupNames: seq<string>, j: nat, acc: seq<string>)
    requires j <= |groupNames|
    ensures OverwriteNamesFrom(groups, groupNames, j, acc).Err? <==>
      exists k :: j <= k < |groupNames| && ArgsPerGroupName(groups, groupNames[k]).ReturnedValueError?
    ensures OverwriteNamesFrom(groups, groupNames, j, acc).Err? ==> OverwriteNamesFrom(groups, groupNames, j, acc).error == NotIterable
    decreases |groupNames| - j
  {
    if j < |groupNames| && ArgsPerGroupName(groups, groupNames[j]).Dests? {
      MissingGroupNotIterable(groups, groupNames, j + 1, acc + ArgsPerGroupName(groups, groupNames[j]).names);
    }
  }

  // ---------------------------------------------------------------------------
  // The overwrite loop of parse_and_load_from_model
  // ---------------------------------------------------------------------------

  /**
   * The overwrite loop from name j on: a saved value replaces the current
   * one; a name without a saved value keeps its current value, whose
   * display in the warning (`args.__dict__[a]`) raises KeyError when the
   * namespace lacks it as well.
   */
  function OverwriteFrom(attrs: map<string, Value>, names: seq<string>, saved: map<string, Value>, j: nat)
    : (map<string, Value>, Option<Error>)
    decreases |names| - j
  {
    if j >= |names| then (attrs, None)
    else if names[j] in saved then OverwriteFrom(attrs[names[j] := saved[names[j]]], names, saved, j + 1)
    else if names[j] in attrs then OverwriteFrom(attrs, names, saved, j + 1)
    else (attrs, Some(KeyMissing))
  }

  /** A parsed argument namespace: its attribute dictionary. */
  class Namespace {
    var attrs: map<string, Value>

    constructor(attrs: map<string, Value>)
      ensures this.attrs == attrs
    {
      this.attrs := attrs;
    }

    /** `for a in args_to_overwrite: setattr(args, a, model_args[a])` when saved, else warn. */
    method Overwrite(names: seq<string>, saved: map<string, Value>) returns (failure: Option<Error>)
      modifies this
      ensures (attrs, failure) == OverwriteFrom(old(attrs), names, saved, 0)
    {
      var i := 0;
      while i < |names|
        invariant i <= |names|
        invariant OverwriteFrom(old(attrs), names, saved, 0) == OverwriteFrom(attrs, names, saved, i)
      {
        var a := names[i];
        if a in saved {
          attrs := attrs[a := saved[a]];
        } else if a !in attrs {
          return Some(KeyMissing);
        }
        i := i + 1;
      }
      failure := None;
    }
  }

  /**
   * The overwrite step fails exactly when some listed name is neither saved
   * nor in the namespace. Otherwise every listed name that was saved takes
   * the saved value, every other listed name keeps its value, and every
   * name not listed is untouched.
   */
  lemma {:induction false} OverwriteEffect(attrs: map<string, Value>, names: seq<string>, saved: map<string, Value>, j: nat)
    requires j <= |names|
    ensures OverwriteFrom(attrs, names, saved, j).1.Some? <==>
      exists k :: j <= k < |names| && names[k] !in saved && names[k] !in attrs
    ensures var (r, failure) := OverwriteFrom(attrs, names, saved, j);
      failure.None? ==>
        (forall a :: a in names[j..] && a in saved ==> a in r && r[a] == saved[a]) &&
        (forall a :: a in names[j..] && a !in saved ==> a in attrs && a in r && r[a] == attrs[a]) &&
        (forall a :: a !in names[j..] ==> (a in r <==> a in attrs) && (a in attrs ==> r[a] == attrs[a]))
    decreases |names| - j
  {
    if j < |names| {
      var a := names[j];
      assert names[j..] == [a] + names[j + 1..];
      if a in saved {
        OverwriteEffect(attrs[a := saved[a]], names, saved, j + 1);
        var (r, failure) := OverwriteFrom(attrs[a := saved[a]], names, saved, j + 1);
        if failure.Some? {
          var k :| j + 1 <= k < |names| && names[k] !in saved && names[k] !in attrs[a := saved[a]];
          assert names[k] != a;
        }
      } else if a in attrs {
        OverwriteEffect(attrs, names, saved, j + 1);
      }
    }
  }

  // ---------------------------------------------------------------------------
  // Model-name and task-name choices
  // ---------------------------------------------------------------------------

  /** `name.split('.')[0]`: everything before the first dot. */
  function BeforeFirstDot(s: string): (r: string)
    ensures |r| <= |s| && r == s[..|r|]
    ensures '.' !in r
    ensures |r| < |s| ==> s[|r|] == '.'
  {
    if s == [] || s[0] == '.' then [] else [s[0]] + BeforeFirstDot(s[1..])
  }

  /** `name.endswith('.py')`. */
  predicate EndsWithPy(s: string)
  {
    |s| >= 3 && s[|s| - 3..] == ".py"
  }

  /** An entry of `os.listdir(model_dir)` with whether it is a regular file. */
  datatype DirEntry = DirEntry(name: string, isFile: bool)

  predicate IsModelFile(e: DirEntry)
  {
    e.isFile && EndsWithPy(e.name)
  }

  /** The `--model_name` choices: the part before the first dot of every `.py` file, in listing order. */
  function ModelNameOptions(entries: seq<DirEntry>): seq<string>
  {
    if entries == [] then []
    else
      var e := entries[|entries| - 1];
      ModelNameOptions(entries[..|entries| - 1]) + (if IsModelFile(e) then [BeforeFirstDot(e.name)] else [])
  }

  /** A choice is offered exactly when some `.py` file has it before its first dot. */
  lemma {:induction false} ModelNameChoices(entries: seq<DirEntry>, x: string)
    ensures x in ModelNameOptions(entries) <==> exists e :: e in entries && IsModelFile(e) && BeforeFirstDot(e.name) == x
    decreases |entries|
  {
    if entries != [] {
      var init, e := entries[..|entries| - 1], entries[|entries| - 1];
      ModelNameChoices(init, x);
      assert entries == init + [e];
      if x in ModelNameOptions(entries) && x !in ModelNameOptions(init) {
        assert e in entries;
      }
      if exists e' :: e' in entries && IsModelFile(e') && BeforeFirstDot(e'.name) == x {
        var e' :| e' in entries && IsModelFile(e') && BeforeFirstDot(e'.name) == x;
        if e' != e {
          assert e' in init;
        }
      }
    }
  }

  /** The choice offered for a `.py` file is a proper prefix of its name, cut at the first dot. */
  lemma {:induction false} ModelNameIsStem(e: DirEntry)
    requires IsModelFile(e)
    ensures |BeforeFirstDot(e.name)| < |e.name| && e.name[|BeforeFirstDot(e.name)|] == '.'
  {
    var n := e.name;
    assert n[|n| - 3] == n[|n| - 3..][0] == '.';
  }

  /** A file with several dots is offered under the part before the first one; other entries are skipped. */
  lemma {:induction false} ModelNameExample()
    ensures ModelNameOptions([DirEntry("a.b.py", true), DirEntry("c.py", false)]) == ["a"]
  {
    var es := [DirEntry("a.b.py", true), DirEntry("c.py", false)];
    assert es[..1][..0] == [];
    assert es[..1] == [es[0]];
    assert EndsWithPy("a.b.py") by {
      assert "a.b.py"[3..] == ".py";
    }
    assert BeforeFirstDot("a.b.py") == "a" by {
      assert "a.b.py"[1..] == ".b.py";
    }
  }

  /** A member of the tasks module: a class (with its `__name__`) or any other object. */
  datatype Member = ClassMember(className: string) | OtherMember

  /** Kept by the task filter: a class whose name is neither `ABC` nor `Task`. */
  predicate IsTaskClass(obj: Member)
  {
    obj.ClassMember? && obj.className != "ABC" && obj.className != "Task"
  }

  /** The `--task` choices from `inspect.getmembers(tasks)`, in member order. */
  function TaskChoices(members: seq<(string, Member)>): seq<string>
  {
    if members == [] then []
    else
      var obj := members[|members| - 1].1;
      TaskChoices(members[..|members| - 1]) + (if IsTaskClass(obj) then [obj.className] else [])
  }

  /** `add_task_option`: the loop appending each qualifying class name. */
  method AddTaskChoices(members: seq<(string, Member)>) returns (taskChoices: seq<string>)
    ensures taskChoices == TaskChoices(members)
  {
    taskChoices := [];
    var i := 0;
    while i < |members|
      invariant i <= |members|
      invariant taskChoices == TaskChoices(members[..i])
    {
      var obj := members[i].1;
      assert members[..i + 1][..i] == members[..i];
      if obj.ClassMember? {
        var clsName := obj.className;
        if clsName != "ABC" && clsName != "Task" {
          taskChoices := taskChoices + [clsName];
        }
      }
      i := i + 1;
    }
    assert members[..i] == members;
  }

  /**
   * The choices are exactly the names of the classes among the members other
   * than `ABC` and `Task`; in particular those two are never offered.
   */
  lemma {:induction false} TaskChoicesMembers(members: seq<(string, Member)>, x: string)
    ensures x in TaskChoices(members) <==> (exists m :: m in members && m.1 == ClassMember(x)) && x != "ABC" && x != "Task"
    decreases |members|
  {
    if members != [] {
      var init, m := members[..|members| - 1], members[|members| - 1];
      TaskChoicesMembers(init, x);
      assert members == init + [m];
      if x in TaskChoices(members) && x !in TaskChoices(init) {
        assert m in members;
      }
      if exists m' :: m' in members && m'.1 == ClassMember(x) {
        var m' :| m' in members && m'.1 == ClassMember(x);
        if m' != m {
          assert m' in init;
        }
      }
    }
  }

  /** The filter keeps member order: the choices of a concatenation are the concatenated choices. */
  lemma {:induction false} TaskChoicesAppend(members: seq<(string, Member)>, more: seq<(string, Member)>)
    ensures TaskChoices(members + more) == TaskChoices(members) + TaskChoices(more)
    decreases |more|
  {
    if more == [] {
      assert members + more == members;
    } else {
      assert (members + more)[..|members + more| - 1] == members + more[..|more| - 1];
      TaskChoicesAppend(members, more[..|more| - 1]);
    }
  }
}
