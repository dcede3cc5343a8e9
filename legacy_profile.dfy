/** The older profile package (internal/profile/profile.go): `Compile` passes `Params` through as they are. */
module LegacyProfile {
  import opened FFmpegCmd

  datatype Profile = Profile(name: string, params: map<string, string>)

  /**
   * `Profile.Compile`: the output arguments are a copy of `Params`, built key by key;
   * `Params` is only read.
   */
  method Compile(p: Profile, input: string, output: string, progressSock: string)
    returns (inv: Invocation)
    ensures inv.input == input && inv.output == output
    ensures inv.args.Keys == p.params.Keys
    ensures forall k :: k in p.params ==> inv.args[k] == p.params[k]
    ensures inv.globalArgs == ProgressArgs(progressSock) && inv.overwrite
  {
    var args: map<string, string> := map[];
    var todo := p.params.Keys;
    while todo != {}
      invariant todo <= p.params.Keys
      invariant args.Keys == p.params.Keys - todo
      invariant forall k :: k in args ==> args[k] == p.params[k]
      decreases todo
    {
      var k :| k in todo;
      args := args[k := p.params[k]];
      todo := todo - {k};
    }
    inv := Invocation(input, output, args, ProgressArgs(progressSock), true);
  }
}
