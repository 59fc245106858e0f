/**
 * Materialising a command's option list into the name-to-value lookup `i.data.option`
 * (src/index.ts, onCommand): options are written in order, so the last one with a name wins.
 */
module CommandOptions {
  import opened Wrappers

  /** An option's value; `NoValue` is the `undefined` a sub-command or group option carries. */
  datatype OptionValue =
    | StringValue(text: string) | IntegerValue(integer: int) | NumberValue(number: real) | BooleanValue(truth: bool)
    | NoValue

  datatype CommandOption = CommandOption(name: string, value: OptionValue)

  /** `i.data.options || []`: an absent option list is walked as an empty one. */
  function OrEmpty(options: Option<seq<CommandOption>>): (walked: seq<CommandOption>)
    ensures options.None? ==> walked == []
    ensures options.Some? ==> walked == options.value
  {
    if options.Some? then options.value else []
  }

  /** The lookup `m` after each option of `opts` has been written into it, first to last. */
  function WriteAll(m: map<string, OptionValue>, opts: seq<CommandOption>): map<string, OptionValue>
    decreases |opts|
  {
    if opts == [] then m
    else
      var last := opts[|opts| - 1];
      WriteAll(m, opts[..|opts| - 1])[last.name := last.value]
  }

  /** The last option carrying a name decides that name's value. */
  lemma {:induction false} LastOptionWins(m: map<string, OptionValue>, opts: seq<CommandOption>, j: nat)
    requires j < |opts|
    requires forall k | j < k < |opts| :: opts[k].name != opts[j].name
    ensures opts[j].name in WriteAll(m, opts) && WriteAll(m, opts)[opts[j].name] == opts[j].value
  {
    if j < |opts| - 1 {
      LastOptionWins(m, opts[..|opts| - 1], j);
    }
  }

  /** A name that no option carries keeps what the lookup held before, or stays absent. */
  lemma {:induction false} UnnamedKeepsPrior(m: map<string, OptionValue>, opts: seq<CommandOption>, name: string)
    requires forall k | 0 <= k < |opts| :: opts[k].name != name
    ensures name in WriteAll(m, opts) <==> name in m
    ensures name in m ==> WriteAll(m, opts)[name] == m[name]
  {
    if opts != [] {
      UnnamedKeepsPrior(m, opts[..|opts| - 1], name);
    }
  }

  /** src/index.ts:197-198: `for (const option of options) lookup[option.name] = option.value`. */
  method MaterializeOptions(option: map<string, OptionValue>, options: seq<CommandOption>)
    returns (lookup: map<string, OptionValue>)
    ensures lookup == WriteAll(option, options)
  {
    lookup := option;
    for k := 0 to |options|
      invariant lookup == WriteAll(option, options[..k])
    {
      assert options[..k + 1][..k] == options[..k];
      lookup := lookup[options[k].name := options[k].value];
    }
    assert options[..|options|] == options;
  }
}
