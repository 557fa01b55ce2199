/**
 * The command table `player_commands`: built-in handlers, the aliases
 * installed over it, what invoking a name runs, and the `commands` listing.
 */
module Registry {

  /** A table entry: a built-in command body, or an alias's forwarding closure naming its target. */
  datatype Handler = Builtin(command: string) | AliasOf(target: string)

  /** What invoking a name amounts to. */
  datatype Call =
    | Runs(command: string, returnsResult: bool)  // this built-in runs; its return value reaches the caller or is dropped
    | Unregistered                                // no such key: the dispatcher falls back to the exits
    | Throws                                      // an alias whose target is missing calls `undefined.apply`
    | TooDeep                                     // the alias chain outgrew the call stack

  /**
   * Invoking `name`. An alias looks its target up in the table as it is at
   * call time, forwards the arguments and drops the target's return value.
   * `depth` stands for the call stack: each alias hop uses one frame.
   */
  function Invoke(table: map<string, Handler>, name: string, depth: nat): (c: Call)
    ensures c == Unregistered <==> name !in table
    ensures c.Runs? ==> (c.returnsResult <==> table[name].Builtin?)
    ensures c.Runs? && c.returnsResult ==> table[name] == Builtin(c.command)
    decreases depth
  {
    if name !in table then Unregistered
    else match table[name]
      case Builtin(command) => Runs(command, true)
      case AliasOf(target) =>
        if depth == 0 then TooDeep
        else match Invoke(table, target, depth - 1)
          case Runs(command, _) => Runs(command, false)
          case Unregistered => Throws
          case other => other
  }

  /** A chain that resolves within some depth resolves the same way with more stack. */
  lemma {:induction false} InvokeDeeper(table: map<string, Handler>, name: string, depth: nat, more: nat)
    requires Invoke(table, name, depth).Runs?
    ensures Invoke(table, name, depth + more) == Invoke(table, name, depth)
    decreases depth
  {
    if table[name].AliasOf? {
      InvokeDeeper(table, table[name].target, depth - 1, more);
    }
  }

  /**
   * An alias runs whatever its target runs, one frame deeper, and never
   * passes the result on (so an alias of `quit` would not end the session).
   */
  lemma AliasForwards(table: map<string, Handler>, alias: string, depth: nat)
    requires alias in table && table[alias].AliasOf?
    requires Invoke(table, table[alias].target, depth).Runs?
    ensures Invoke(table, alias, depth + 1) == Runs(Invoke(table, table[alias].target, depth).command, false)
  {
  }

  /**
   * Binding is late: redefining the target after the alias was made
   * changes what the alias runs.
   */
  lemma {:induction false} AliasFollowsRedefinition(table: map<string, Handler>, alias: string, target: string, command: string, depth: nat)
    requires alias != target && alias in table && table[alias] == AliasOf(target)
    ensures Invoke(table[target := Builtin(command)], alias, depth + 1) == Runs(command, false)
  {
    var t := table[target := Builtin(command)];
    assert t[alias] == AliasOf(target);
    assert Invoke(t, target, depth) == Runs(command, true);
  }

  /** The built-in commands, in the order the handler table lists them. */
  const Builtins: seq<string> :=
    ["commands", "drop", "equipment", "get", "inventory", "look", "kill", "quit",
     "remove", "save", "skills", "tnl", "where", "who", "wield"]

  /** The names the load-time aliases add, in the order they are made. */
  const AliasNames: seq<string> := ["l", "inv", "eq", "rem", "exp"]

  /** No built-in is named like one of the load-time aliases. */
  lemma BuiltinsAreNotAliases()
    ensures "l" !in Builtins && "inv" !in Builtins && "eq" !in Builtins
    ensures "rem" !in Builtins && "exp" !in Builtins
  {
  }

  /** Appending the aliases one by one appends `AliasNames`. */
  lemma AliasNamesInOrder(b: seq<string>)
    ensures b + ["l"] + ["inv"] + ["eq"] + ["rem"] + ["exp"] == b + AliasNames
  {
  }

  /** The table as the module leaves it: the built-ins, each under its own name, then the five aliases. */
  function DefaultTable(): map<string, Handler>
  {
    (map n | n in Builtins :: Builtin(n))
      ["l" := AliasOf("look")]
      ["inv" := AliasOf("inventory")]
      ["eq" := AliasOf("equipment")]
      ["rem" := AliasOf("remove")]
      ["exp" := AliasOf("tnl")]
  }

  ghost predicate NoDuplicates(names: seq<string>)
  {
    forall i, j :: 0 <= i < j < |names| ==> names[i] != names[j]
  }

  /** The handler table: its entries and its keys in insertion order, which `for ... in` follows. */
  class CommandTable {
    var names: seq<string>
    var handlers: map<string, Handler>

    ghost predicate Valid()
      reads this
    {
      forall n :: n in handlers <==> n in names
    }

    /** The table at load time: the built-ins in declaration order, then the five `alias` calls. */
    constructor ()
      ensures Valid()
      ensures names == Builtins + AliasNames
      ensures handlers == DefaultTable()
    {
      names := Builtins;
      handlers := map n | n in Builtins :: Builtin(n);
      new;
      BuiltinsAreNotAliases();
      Alias("l", "look");
      assert "inv" !in handlers;
      Alias("inv", "inventory");
      assert "eq" !in handlers;
      Alias("eq", "equipment");
      assert "rem" !in handlers;
      Alias("rem", "remove");
      assert "exp" !in handlers;
      Alias("exp", "tnl");
      AliasNamesInOrder(Builtins);
    }

    /** `alias(name, target)`: installs (or overwrites) the forwarding entry. */
    method Alias(name: string, target: string)
      requires Valid()
      modifies this
      ensures Valid()
      ensures handlers == old(handlers)[name := AliasOf(target)]
      ensures names == if name in old(handlers) then old(names) else old(names) + [name]
    {
      if name !in handlers {
        names := names + [name];
      }
      handlers := handlers[name := AliasOf(target)];
    }
  }

  /** Each load-time alias runs its target and drops the result. */
  lemma DefaultAliasesResolve()
    ensures forall k :: 0 <= k < |AliasNames| ==>
      Invoke(DefaultTable(), AliasNames[k], 1) == Runs(DefaultTable()[AliasNames[k]].target, false)
    ensures forall k :: 0 <= k < |AliasNames| ==> DefaultTable()[AliasNames[k]].target in Builtins
  {
    var t := DefaultTable();
    var base := map n | n in Builtins :: Builtin(n);
    assert forall n :: n in Builtins ==> n !in AliasNames;
    forall k | 0 <= k < |AliasNames|
      ensures Invoke(t, AliasNames[k], 1) == Runs(t[AliasNames[k]].target, false)
      ensures t[AliasNames[k]].target in Builtins
    {
      var target := t[AliasNames[k]].target;
      assert target in Builtins;
      assert t[target] == base[target];
    }
  }

  /** The listing names every key once: the built-ins and the aliases are all distinct. */
  lemma DefaultNamesDistinct()
    ensures NoDuplicates(Builtins + AliasNames)
  {
  }

  // ---------------------------------------------------------------------
  // The `commands` listing

  /** One printed cell of the listing; `endsLine` when it is said rather than written. */
  datatype Cell = Cell(text: string, endsLine: bool)

  /** The length of the longest name. */
  function MaxLength(names: seq<string>): (m: nat)
    ensures forall k :: 0 <= k < |names| ==> |names[k]| <= m
    ensures names == [] ==> m == 0
  {
    if names == [] then 0
    else
      var m := MaxLength(names[..|names| - 1]);
      if |names[|names| - 1]| > m then |names[|names| - 1]| else m
  }

  /** The bound is tight: some name is exactly that long. */
  lemma {:induction false} MaxLengthAttained(names: seq<string>)
    requires names != []
    ensures exists k :: 0 <= k < |names| && |names[k]| == MaxLength(names)
  {
    var init := names[..|names| - 1];
    if init != [] && |names[|names| - 1]| <= MaxLength(init) {
      MaxLengthAttained(init);
      var k :| 0 <= k < |init| && |init[k]| == MaxLength(init);
      assert names[k] == init[k];
    } else {
      assert |names[|names| - 1]| == MaxLength(names);
    }
  }

  /** `s` left-aligned in a field of `width` characters, as `%-<width>s` prints it. */
  function PadRight(s: string, width: nat): (r: string)
    ensures |r| == if |s| < width then width else |s|
    ensures forall j :: 0 <= j < |r| ==> r[j] == if j < |s| then s[j] else ' '
  {
    if |s| < width then s + seq(width - |s|, _ => ' ') else s
  }

  /**
   * `commands`: every name in a column one wider than the longest, the
   * line broken after every fifth.
   */
  method ListCommands(names: seq<string>) returns (cells: seq<Cell>)
    ensures |cells| == |names|
    ensures forall k :: 0 <= k < |names| ==> cells[k] == Cell(PadRight(names[k], MaxLength(names) + 1), (k + 1) % 5 == 0)
  {
    var maxlength := 0;
    for i := 0 to |names|
      invariant maxlength == MaxLength(names[..i])
    {
      assert names[..i + 1][..i] == names[..i];
      if |names[i]| > maxlength {
        maxlength := |names[i]|;
      }
    }
    assert names[..|names|] == names;
    cells := [];
    for i := 1 to |names| + 1
      invariant |cells| == i - 1
      invariant forall k :: 0 <= k < i - 1 ==> cells[k] == Cell(PadRight(names[k], maxlength + 1), (k + 1) % 5 == 0)
    {
      cells := cells + [Cell(PadRight(names[i - 1], maxlength + 1), i % 5 == 0)];
    }
  }
}
