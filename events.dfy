/** The `EventType` enumeration: the six signing-lifecycle events a host may subscribe to. */
module Events {
  import Values

  datatype EventKind = Started | Success | Error | Ping | Declined | SignatureDone

  /** The wire name of each event kind, as it appears in `data.event`. */
  function Name(k: EventKind): string {
    match k
    case Started => "started"
    case Success => "success"
    case Error => "error"
    case Ping => "ping"
    case Declined => "declined"
    case SignatureDone => "signature.done"
  }

  /** The event kind whose wire name is `s`, if any. */
  function FromName(s: string): (r: Values.Option<EventKind>)
    ensures r.Some? ==> Name(r.value) == s
    ensures r.None? ==> forall k: EventKind :: Name(k) != s
  {
    if s == "started" then Values.Some(Started)
    else if s == "success" then Values.Some(Success)
    else if s == "error" then Values.Some(Error)
    else if s == "ping" then Values.Some(Ping)
    else if s == "declined" then Values.Some(Declined)
    else if s == "signature.done" then Values.Some(SignatureDone)
    else Values.None
  }

  /** Reading a kind's wire name back gives the same kind: names are pairwise distinct. */
  lemma NameRoundTrip(k: EventKind)
    ensures FromName(Name(k)) == Values.Some(k)
  {
  }

  /** Two kinds with the same wire name are the same kind. */
  lemma NameInjective(a: EventKind, b: EventKind)
    requires Name(a) == Name(b)
    ensures a == b
  {
  }
}
