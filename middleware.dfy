/** middleware.go: `TypeFilter`, the handler middleware that lets through
    only messages of the given event types and MIME type. */
module Middleware {
  import opened Common
  import opened Errors
  import opened Messages

  /** Declared next to ErrUnhandledMIME; the filter does not return it. */
  const ErrUnhandledType := "ensign type not handled"
  const ErrUnhandledMIME := "ensign mimetype not handled"

  /** What the middleware closes over: the expected MIME type and the set of
      accepted type names. */
  datatype TypeFilter = TypeFilter(mime: string, types: set<string>)

  /** What a `message.HandlerFunc` returns. */
  datatype Handled = Handled(msgs: seq<Message>, err: Option<Error>)

  /** What the wrapped handler does with a message: its result, and whether
      it Nacked the message. */
  datatype Outcome = Outcome(result: Handled, nacked: bool)

  /** `TypeFilter(mime, etypes...)`: collect the type names into a set. */
  method NewTypeFilter(mime: string, etypes: seq<string>) returns (f: TypeFilter)
    ensures f.mime == mime
    ensures forall t :: t in f.types <==> t in etypes
  {
    var types: set<string> := {};
    for k := 0 to |etypes|
      invariant forall t :: t in types <==> t in etypes[..k]
    {
      assert etypes[..k + 1] == etypes[..k] + [etypes[k]];
      types := types + {etypes[k]};
    }
    assert etypes[..|etypes|] == etypes;
    f := TypeFilter(mime, types);
  }

  /** The handler `h` wrapped by the filter, applied to `msg`. */
  function Apply(f: TypeFilter, h: Message -> Handled, msg: Message): (o: Outcome)
    ensures o.nacked <==> Get(msg.metadata, TypeNameKey) !in f.types
    ensures o.nacked ==> o.result == Handled([], None)
    ensures !o.nacked && Get(msg.metadata, MIMEKey) != f.mime ==> o.result == Handled([], Some(Plain(ErrUnhandledMIME)))
    ensures Get(msg.metadata, TypeNameKey) in f.types && Get(msg.metadata, MIMEKey) == f.mime ==> o == Outcome(h(msg), false)
  {
    if Get(msg.metadata, TypeNameKey) !in f.types then Outcome(Handled([], None), true)
    else if Get(msg.metadata, MIMEKey) != f.mime then Outcome(Handled([], Some(Plain(ErrUnhandledMIME))), false)
    else Outcome(h(msg), false)
  }

  /** The handler is consulted only when both the type and the MIME type
      match: otherwise any two handlers give the same outcome. */
  lemma HandlerOnlyForMatches(f: TypeFilter, h1: Message -> Handled, h2: Message -> Handled, msg: Message)
    requires Get(msg.metadata, TypeNameKey) !in f.types || Get(msg.metadata, MIMEKey) != f.mime
    ensures Apply(f, h1, msg) == Apply(f, h2, msg)
    ensures Apply(f, h1, msg).result.msgs == []
  {
  }

  /** The type check comes first: an unhandled type is Nacked without an
      error even when its MIME type is wrong too; and a filter with no types
      Nacks everything. */
  lemma TypeCheckFirst(f: TypeFilter, h: Message -> Handled, msg: Message)
    ensures Get(msg.metadata, TypeNameKey) !in f.types ==> Apply(f, h, msg).result.err.None?
    ensures f.types == {} ==> Apply(f, h, msg).nacked
  {
  }
}
