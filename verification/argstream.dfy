/** The token cursor both engines define identically: an immutable array of arguments and an
    index that only moves forward. */
module ArgStreams {

  class ArgStream {
    const args: seq<string>
    var index: nat

    ghost predicate Valid()
      reads this
    {
      index <= |args|
    }

    /** The tokens not yet handed out. */
    ghost function Rest(): seq<string>
      reads this
      requires Valid()
    {
      args[index..]
    }

    constructor (args: seq<string>)
      ensures Valid() && this.args == args && index == 0 && Rest() == args
    {
      this.args := args;
      index := 0;
    }

    predicate HasNext()
      reads this
      requires Valid()
      ensures HasNext() <==> Rest() != []
    {
      index < |args|
    }

    /** Hands out the current token and advances; callers check `HasNext()` first. */
    method Next() returns (arg: string)
      requires Valid() && HasNext()
      modifies this
      ensures Valid() && old(Rest()) == [arg] + Rest()
    {
      index := index + 1;
      arg := args[index - 1];
      assert args[index - 1..] == [arg] + args[index..];
    }
  }
}
