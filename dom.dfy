/**
 * The browser facilities the program relies on: `localStorage` (a map from
 * slot names to strings), form data, the document's event listeners and the
 * custom events dispatched through it, and JSON.stringify/JSON.parse taken as
 * a collaborator.
 */
module Dom {
  import opened Js

  /**
   * JSON.stringify and JSON.parse as an opaque pair; `parse` answers None
   * where JSON.parse throws a SyntaxError.
   */
  datatype JsonCodec = JsonCodec(stringify: Json -> string, parse: string -> Option<Json>)

  /**
   * What the program needs of the pair: parsing a serialized value gives it
   * back, a serialized value is never the empty string, "null" parses to null
   * and the text "undefined" does not parse.
   */
  ghost predicate RoundTrips(c: JsonCodec) {
    && (forall v :: c.parse(c.stringify(v)) == Some(v))
    && (forall v :: c.stringify(v) != "")
    && c.parse("null") == Some(JNull)
    && c.parse("undefined") == None
  }

  /** The text fields of a submitted form (file fields are not modelled). */
  type FormData = map<string, string>

  /** `formData.get(key)`: the field's text, or null when the form has no such field. */
  function FormGet(form: FormData, key: string): (r: Json)
    ensures r == JNull <==> key !in form
    ensures key in form ==> r == JString(form[key])
  {
    if key in form then JString(form[key]) else JNull
  }

  const SignInType: string := "auth:sign_in"
  const SignOutType: string := "auth:sign_out"

  /** The two custom events of the session. */
  datatype AuthEvent = SignIn(detail: Json) | SignOut {
    function Type(): string {
      if SignIn? then SignInType else SignOutType
    }
  }

  /** What a listener of App does with the event it hears. */
  datatype Effect = SetToDetail | SetToNull

  /**
   * The state a listener stores. A CustomEvent created without a detail
   * carries `null` as its detail.
   */
  function Apply(effect: Effect, e: AuthEvent): Json {
    match effect
    case SetToDetail => if e.SignIn? then e.detail else JNull
    case SetToNull => JNull
  }

  /** A React state slot that a listener writes to. */
  class StateCell {
    var value: Json

    constructor (v: Json)
      ensures value == v
    {
      value := v;
    }
  }

  /**
   * One registration on the document: the event type, the identity of the
   * callback (two closures are the same callback only if their ids agree),
   * and what the callback does to which state slot.
   */
  datatype Listener = Listener(eventType: string, handler: nat, effect: Effect, cell: StateCell)

  /**
   * The value the slot `c` holds after the listeners `ls`, called in order,
   * have handled `e`, when it held `v` before: the last listener for `e`'s
   * type that writes `c` decides.
   */
  function Heard(ls: seq<Listener>, e: AuthEvent, c: StateCell, v: Json): Json
  {
    if ls == [] then v
    else
      var last := ls[|ls| - 1];
      if last.eventType == e.Type() && last.cell == c then Apply(last.effect, e)
      else Heard(ls[..|ls| - 1], e, c, v)
  }

  predicate Matches(l: Listener, eventType: string, handler: nat) {
    l.eventType == eventType && l.handler == handler
  }

  /** Whether the callback `handler` is registered for `eventType`. */
  predicate Registered(ls: seq<Listener>, eventType: string, handler: nat) {
    exists l :: l in ls && Matches(l, eventType, handler)
  }

  /** `removeEventListener(eventType, handler)`: every other registration stays, in order. */
  function Without(ls: seq<Listener>, eventType: string, handler: nat): (r: seq<Listener>)
    ensures forall l :: l in r ==> l in ls && !Matches(l, eventType, handler)
    ensures forall l :: l in ls && !Matches(l, eventType, handler) ==> l in r
    ensures |r| <= |ls|
  {
    if ls == [] then []
    else
      var rest := Without(ls[1..], eventType, handler);
      if Matches(ls[0], eventType, handler) then rest else [ls[0]] + rest
  }

  lemma {:induction false} WithoutDistributes(a: seq<Listener>, b: seq<Listener>, eventType: string, handler: nat)
    ensures Without(a + b, eventType, handler) == Without(a, eventType, handler) + Without(b, eventType, handler)
  {
    if a != [] {
      assert (a + b)[1..] == a[1..] + b;
      WithoutDistributes(a[1..], b, eventType, handler);
    } else {
      assert a + b == b;
    }
  }

  lemma {:induction false} WithoutNothingRegistered(ls: seq<Listener>, eventType: string, handler: nat)
    requires !Registered(ls, eventType, handler)
    ensures Without(ls, eventType, handler) == ls
  {
    if ls != [] {
      assert ls[0] in ls;
      assert !Registered(ls[1..], eventType, handler) by {
        forall l | l in ls[1..] ensures !Matches(l, eventType, handler) {
          assert l in ls;
        }
      }
      WithoutNothingRegistered(ls[1..], eventType, handler);
      assert [ls[0]] + ls[1..] == ls;
    }
  }

  /**
   * The browsing context: `localStorage`, the document's listeners, the log
   * of events dispatched on it, the counter that gives each new callback its
   * identity, and the JSON implementation.
   */
  class Browser {
    var storage: map<string, string>
    var listeners: seq<Listener>
    var events: seq<AuthEvent>
    var nextHandler: nat
    const json: JsonCodec

    /** A page load: storage persists from earlier visits; nothing listens yet. */
    constructor (storage: map<string, string>, json: JsonCodec)
      ensures this.storage == storage && this.json == json
      ensures listeners == [] && events == []
      ensures Valid()
    {
      this.storage := storage;
      this.json := json;
      listeners := [];
      events := [];
      nextHandler := 0;
    }

    /** Every registered callback was created before the next one will be. */
    ghost predicate Valid()
      reads this
    {
      forall l :: l in listeners ==> l.handler < nextHandler
    }

    /** The state slots some listener writes to. */
    ghost function Cells(): set<StateCell>
      reads this
    {
      set l | l in listeners :: l.cell
    }

    /** `localStorage.getItem(key)`: None stands for the `null` of an empty slot. */
    function GetItem(key: string): (r: Option<string>)
      reads this
      ensures r.Some? <==> key in storage
      ensures r.Some? ==> r.value == storage[key]
    {
      if key in storage then Some(storage[key]) else None
    }

    /** Creating a closure: a callback identity not used before. */
    method NewHandler() returns (id: nat)
      requires Valid()
      modifies this
      ensures Valid()
      ensures id == old(nextHandler) && nextHandler == id + 1
      ensures storage == old(storage) && listeners == old(listeners) && events == old(events)
      ensures !Registered(listeners, SignInType, id) && !Registered(listeners, SignOutType, id)
    {
      id := nextHandler;
      nextHandler := nextHandler + 1;
    }

    /** `document.addEventListener`: a callback already registered for the type is not added twice. */
    method AddEventListener(eventType: string, handler: nat, effect: Effect, cell: StateCell)
      requires Valid() && handler < nextHandler
      modifies this
      ensures Valid()
      ensures listeners == if Registered(old(listeners), eventType, handler) then old(listeners)
                           else old(listeners) + [Listener(eventType, handler, effect, cell)]
      ensures storage == old(storage) && events == old(events) && nextHandler == old(nextHandler)
    {
      if !Registered(listeners, eventType, handler) {
        listeners := listeners + [Listener(eventType, handler, effect, cell)];
      }
    }

    /** `document.removeEventListener`. */
    method RemoveEventListener(eventType: string, handler: nat)
      requires Valid()
      modifies this
      ensures Valid()
      ensures listeners == Without(old(listeners), eventType, handler)
      ensures storage == old(storage) && events == old(events) && nextHandler == old(nextHandler)
    {
      listeners := Without(listeners, eventType, handler);
    }

    /**
     * `document.dispatchEvent(e)`: the event is logged and every listener
     * registered for its type is called, in registration order.
     */
    method DispatchEvent(e: AuthEvent)
      modifies this, Cells()
      ensures storage == old(storage) && listeners == old(listeners) && nextHandler == old(nextHandler)
      ensures events == old(events) + [e]
      ensures forall c :: c in old(Cells()) ==> c.value == Heard(listeners, e, c, old(c.value))
    {
      events := events + [e];
      var i := 0;
      while i < |listeners|
        invariant 0 <= i <= |listeners|
        invariant storage == old(storage) && listeners == old(listeners) && nextHandler == old(nextHandler)
        invariant events == old(events) + [e]
        invariant forall c :: c in old(Cells()) ==> c.value == Heard(listeners[..i], e, c, old(c.value))
      {
        var l := listeners[i];
        assert listeners[..i + 1][..i] == listeners[..i];
        if l.eventType == e.Type() {
          assert l.cell in old(Cells());
          l.cell.value := Apply(l.effect, e);
        }
        i := i + 1;
      }
      assert listeners[..|listeners|] == listeners;
    }
  }
}
