/**
 * The untyped messages that reach the plugin over a Flutter method channel:
 * a method name plus an `arguments` value that the native side casts field by
 * field, falling back to a default when a key is missing or holds a value of
 * another type.
 */
module Payload {
  import opened Wrappers

  /** One value decoded by the channel codec. Doubles, lists, nested maps and
      null are modelled alike, as a value that fails every String, Int and Bool
      cast; Swift's numeric bridging, which lets some of them through on iOS,
      is left out of the model. */
  datatype Value = Str(s: string) | Int(i: int) | Bool(b: bool) | Other

  /** The `arguments` of a call: a string-keyed map, or anything else. */
  datatype Arguments = Dict(entries: map<string, Value>) | NotADict

  datatype MethodCall = MethodCall(name: string, arguments: Arguments)

  /** What the native side sends back for a call. The handlers of this plugin
      never answer a call they recognise; `NotImplemented` is the empty reply
      that the Dart side turns into a missing-plugin error. */
  datatype Reply = NoReply | NotImplemented

  /** The value stored under `key`, if `args` is a map holding that key. */
  function Lookup(args: Arguments, key: string): Option<Value>
  {
    if args.Dict? && key in args.entries then Some(args.entries[key]) else None
  }

  /** `args[key] as? String ?? fallback` */
  function StringArg(args: Arguments, key: string, fallback: string): string
  {
    match Lookup(args, key)
    case Some(Str(s)) => s
    case _ => fallback
  }

  /** `args[key] as? Int ?? fallback` */
  function IntArg(args: Arguments, key: string, fallback: int): int
  {
    match Lookup(args, key)
    case Some(Int(i)) => i
    case _ => fallback
  }

  /** `args[key] as? Bool ?? fallback` */
  function BoolArg(args: Arguments, key: string, fallback: bool): bool
  {
    match Lookup(args, key)
    case Some(Bool(b)) => b
    case _ => fallback
  }
}
