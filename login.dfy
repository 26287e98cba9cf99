/** `Meteor.loginWithPitchly(options, callback)`: a callback may be passed in
    place of the options. */
module Login {
  import opened Js

  /** The arguments handed on to `Pitchly.requestCredential`. */
  datatype LoginArgs = LoginArgs(options: Value, callback: Value)

  /** A function in the options position with no callback after it is the
      callback, and the options become null; any other pair is kept. */
  function NormalizeLoginArgs(options: Value, callback: Value): (r: LoginArgs)
    ensures !Truthy(callback) && options.Func? ==> r.callback == options && r.options == Null
    ensures Truthy(callback) || !options.Func? ==> r == LoginArgs(options, callback)
    ensures !(r.options.Func? && !Truthy(r.callback))
  {
    if !Truthy(callback) && options.Func? then LoginArgs(Null, options) else LoginArgs(options, callback)
  }

  /** Normalising twice is normalising once. */
  lemma NormalizeIdempotent(options: Value, callback: Value)
    ensures var r := NormalizeLoginArgs(options, callback);
      NormalizeLoginArgs(r.options, r.callback) == r
  {
  }
}
