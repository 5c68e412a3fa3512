/**
 * The two services of the actions runtime the configuration uses: reading a
 * named input, and marking a value as secret so it is masked in the log.
 * Both keep a ghost history of what was asked of them.
 */
module ActionsCore {

  class ActionInputs {
    /** The inputs the workflow supplied; an input it did not supply reads as empty. */
    const values: map<string, string>
    /** The names read so far, in order. */
    ghost var Requested: seq<string>

    constructor (values: map<string, string>)
      ensures this.values == values && Requested == []
    {
      this.values := values;
      Requested := [];
    }

    function Get(name: string): string
    {
      if name in values then values[name] else ""
    }

    method GetInput(name: string) returns (v: string)
      modifies this
      ensures v == Get(name)
      ensures Requested == old(Requested) + [name]
    {
      v := if name in values then values[name] else "";
      Requested := Requested + [name];
    }
  }

  class SecretMasker {
    /** The values marked secret so far, in order. */
    ghost var Masked: seq<string>

    constructor ()
      ensures Masked == []
    {
      Masked := [];
    }

    method SetSecret(v: string)
      modifies this
      ensures Masked == old(Masked) + [v]
    {
      Masked := Masked + [v];
    }
  }
}
