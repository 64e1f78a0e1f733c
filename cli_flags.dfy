/**
 * The flag loop shared by the `extract` and `generate` commands (internal/extract/run.go and
 * internal/generate/run.go): from index `i` on, each argument must be a known flag followed by
 * its value, which the flag stores; an unknown flag or a flag without a value stops the loop.
 * `known` tells the command's flags apart and `store` stores a value into the command's state.
 */
module CommandLine {
  import opened Wrappers

  datatype FlagError = MissingValue(flag: string) | UnknownFlag(flag: string)

  function ParseFrom<S>(known: string -> bool, store: (S, string, string) -> S, args: seq<string>, i: nat, st: S)
    : Result<S, FlagError>
    decreases |args| - i
  {
    if i >= |args| then Ok(st)
    else if !known(args[i]) then Err(UnknownFlag(args[i]))
    else if i + 1 >= |args| then Err(MissingValue(args[i]))
    else ParseFrom(known, store, args, i + 2, store(st, args[i], args[i + 1]))
  }

  /**
   * Arguments appended after a list the loop gets through are read from the state it ends in;
   * the loop never stops in the middle of a flag and its value.
   */
  lemma {:induction false} ParseAppend<S>(known: string -> bool, store: (S, string, string) -> S, args: seq<string>, extra: seq<string>, i: nat, st: S)
    requires i <= |args|
    requires ParseFrom(known, store, args, i, st).Ok?
    ensures ParseFrom(known, store, args + extra, i, st)
         == ParseFrom(known, store, args + extra, |args|, ParseFrom(known, store, args, i, st).value)
    decreases |args| - i
  {
    if i < |args| {
      assert (args + extra)[i] == args[i] && (args + extra)[i + 1] == args[i + 1];
      ParseAppend(known, store, args, extra, i + 2, store(st, args[i], args[i + 1]));
    }
  }

  /** A flag given once more at the end overrides what the earlier arguments set. */
  lemma LastOccurrenceWins<S>(known: string -> bool, store: (S, string, string) -> S, args: seq<string>, i: nat, st: S, flag: string, value: string)
    requires i <= |args|
    requires ParseFrom(known, store, args, i, st).Ok? && known(flag)
    ensures ParseFrom(known, store, args + [flag, value], i, st)
         == Ok(store(ParseFrom(known, store, args, i, st).value, flag, value))
  {
    ParseAppend(known, store, args, [flag, value], i, st);
    var more := args + [flag, value];
    assert more[|args|] == flag && more[|args| + 1] == value;
  }

  /** A known flag in last position has no value and is an error naming the flag. */
  lemma TrailingFlagMissingValue<S>(known: string -> bool, store: (S, string, string) -> S, args: seq<string>, i: nat, st: S, flag: string)
    requires i <= |args|
    requires ParseFrom(known, store, args, i, st).Ok? && known(flag)
    ensures ParseFrom(known, store, args + [flag], i, st) == Err(MissingValue(flag))
  {
    ParseAppend(known, store, args, [flag], i, st);
    assert (args + [flag])[|args|] == flag;
  }

  /** An unknown argument where a flag is expected is an error naming it, whatever follows. */
  lemma UnknownFlagRejected<S>(known: string -> bool, store: (S, string, string) -> S, args: seq<string>, i: nat, st: S, arg: string, rest: seq<string>)
    requires i <= |args|
    requires ParseFrom(known, store, args, i, st).Ok? && !known(arg)
    ensures ParseFrom(known, store, args + [arg] + rest, i, st) == Err(UnknownFlag(arg))
  {
    assert args + [arg] + rest == args + ([arg] + rest);
    ParseAppend(known, store, args, [arg] + rest, i, st);
    assert (args + ([arg] + rest))[|args|] == arg;
  }
}
