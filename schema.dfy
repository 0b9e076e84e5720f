/** What a Mongoose schema path does with the value a body supplies for it:
    cast it, apply `trim` and `default`, and run the `required`, `enum` and
    `min` validators. Each reader gives either the stored value or the one
    violation Mongoose records for that path (the first failing validator,
    `required` before the others). */
module Schema {
  import opened Json

  /** The cause behind one message of a Mongoose `ValidationError`. */
  datatype Violation =
    | Required(path: string)
    | NotInEnum(path: string, given: string)
    | BelowMin(path: string, amount: int, min: int)
    | CastFailed(path: string)

  /** A whole document's outcome: the stored record, or the violation of
      every rejected path (at most one per path). */
  datatype Validated<T> = Passed(doc: T) | Failed(errors: seq<Violation>)

  /** One path's outcome. */
  datatype Checked<T> = Accepted(value: T) | Rejected(violation: Violation)

  /** The violations of one path, as a list of zero or one. */
  function Errors<T>(c: Checked<T>): (r: seq<Violation>)
    ensures |r| <= 1 && (r == [] <==> c.Accepted?)
  {
    if c.Accepted? then [] else [c.violation]
  }

  /** A path that is absent from a body, or null in it. */
  predicate Unset(body: Payload, path: string) {
    path !in body || body[path] == Null
  }

  /** `{ type: String, required: true, trim: true }`. The value is trimmed
      before `required` looks at it, so an all-whitespace string is missing. */
  function RequiredText(body: Payload, path: string): (c: Checked<string>)
    ensures c.Accepted? ==> IsTrimmed(c.value) && c.value != []
    ensures c.Accepted? <==> path in body && IsText(body[path]) && Trim(TextOf(body[path])) != []
    ensures c.Accepted? ==> c.value == Trim(TextOf(body[path]))
    ensures c.Rejected? && Unset(body, path) ==> c.violation == Required(path)
    ensures path in body && IsText(body[path]) && Trim(TextOf(body[path])) == [] ==> c == Rejected(Required(path))
    ensures !Unset(body, path) && !IsText(body[path]) ==> c == Rejected(CastFailed(path))
  {
    if Unset(body, path) then Rejected(Required(path))
    else if !IsText(body[path]) then Rejected(CastFailed(path))
    else
      var s := TextOf(body[path]);
      TrimSpec(s);
      if Trim(s) == [] then Rejected(Required(path)) else Accepted(Trim(s))
  }

  /** `{ type: String, trim: true }` with no `required`: absent or null leaves
      the path unset. */
  function OptionalText(body: Payload, path: string): (c: Checked<Option<string>>)
    ensures c.Accepted? ==> (c.value.Some? ==> IsTrimmed(c.value.value))
    ensures c.Accepted? <==> Unset(body, path) || IsText(body[path])
    ensures c.Accepted? && c.value.Some? ==> !Unset(body, path) && c.value.value == Trim(TextOf(body[path]))
    ensures c.Accepted? && c.value.None? ==> Unset(body, path)
    ensures !Unset(body, path) && !IsText(body[path]) ==> c == Rejected(CastFailed(path))
  {
    if Unset(body, path) then Accepted(None)
    else if !IsText(body[path]) then Rejected(CastFailed(path))
    else
      var s := TextOf(body[path]);
      TrimSpec(s);
      Accepted(Some(Trim(s)))
  }

  /** `{ type: Number, required: true, min: min, default: d }`. A default
      replaces only an absent value; an explicit null fails `required`. */
  function Number(body: Payload, path: string, min: int, default: Option<int>): (c: Checked<int>)
    requires default.Some? ==> default.value >= min
    ensures c.Accepted? ==> c.value >= min
    ensures path in body && body[path].Num? ==>
      c == if body[path].n < min then Rejected(BelowMin(path, body[path].n, min)) else Accepted(body[path].n)
    ensures path !in body ==> c == if default.Some? then Accepted(default.value) else Rejected(Required(path))
    ensures path in body && body[path] == Null ==> c == Rejected(Required(path))
    ensures path in body && !body[path].Num? && body[path] != Null ==> c == Rejected(CastFailed(path))
  {
    if path !in body then
      if default.Some? then Accepted(default.value) else Rejected(Required(path))
    else match body[path]
      case Null => Rejected(Required(path))
      case Num(n) => if n < min then Rejected(BelowMin(path, n, min)) else Accepted(n)
      case _ => Rejected(CastFailed(path))
  }

  /** What an accepted number path stores: the body's number, or the default
      when the path is absent. */
  lemma NumberStored(body: Payload, path: string, min: int, default: Option<int>, v: int)
    requires default.Some? ==> default.value >= min
    requires Number(body, path, min, default) == Accepted(v)
    ensures if path in body then body[path].Num? && v == body[path].n else default == Some(v)
  {
  }

  /** What an accepted required text path stores: the body's string,
      trimmed. */
  lemma TextStored(body: Payload, path: string, v: string)
    requires RequiredText(body, path) == Accepted(v)
    ensures path in body && IsText(body[path]) && v == Trim(TextOf(body[path]))
  {
  }

  /** What an accepted enum path stores: the value the body's name parses
      to, or the default when the path is absent. */
  lemma ChoiceStored<E>(body: Payload, path: string, parse: string -> Option<E>, default: Option<E>, e: E)
    requires Choice(body, path, parse, default) == Accepted(e)
    ensures if path in body then IsText(body[path]) && parse(TextOf(body[path])) == Some(e) else default == Some(e)
  {
  }

  /** What an accepted optional text path stores: nothing when the path is
      unset, otherwise the body's string, trimmed. */
  lemma OptionalStored(body: Payload, path: string, v: Option<string>)
    requires OptionalText(body, path) == Accepted(v)
    ensures Unset(body, path) ==> v == None
    ensures !Unset(body, path) ==> IsText(body[path]) && v == Some(Trim(TextOf(body[path])))
  {
  }

  /** What an accepted date path stores: the body's timestamp, or `now` when
      the path is absent. */
  lemma TimestampStored(body: Payload, path: string, now: int, v: int)
    requires Timestamp(body, path, now) == Accepted(v)
    ensures if path in body then body[path].Num? && v == body[path].n else v == now
  {
  }

  /** What an accepted reference path stores: the body's object id. */
  lemma ReferenceStored(body: Payload, path: string, v: nat)
    requires Reference(body, path) == Accepted(v)
    ensures path in body && body[path].Oid? && v == body[path].id
  {
  }

  /** A truthy value accepted by a `min: 0` number path is positive: the
      only falsy number is 0. */
  lemma TruthyNumberPositive(body: Payload, path: string, default: Option<int>)
    requires default.Some? ==> default.value >= 0
    requires Number(body, path, 0, default).Accepted?
    requires Present(body, path)
    ensures Number(body, path, 0, default).value > 0
  {
  }

  /** `{ type: String, required: true, enum: [...] }`: `parse` recognises the
      listed names. The empty string fails `required` before `enum` runs. */
  function Choice<E>(body: Payload, path: string, parse: string -> Option<E>, default: Option<E>): (c: Checked<E>)
    ensures path !in body ==> c == if default.Some? then Accepted(default.value) else Rejected(Required(path))
    ensures path in body ==> (c.Accepted? <==> IsText(body[path]) && TextOf(body[path]) != [] && parse(TextOf(body[path])).Some?)
    ensures path in body && c.Accepted? ==> c.value == parse(TextOf(body[path])).value
    ensures path in body && IsText(body[path]) && TextOf(body[path]) != [] && parse(TextOf(body[path])).None? ==>
      c == Rejected(NotInEnum(path, TextOf(body[path])))
    ensures path in body && body[path] == Null ==> c == Rejected(Required(path))
    ensures path in body && IsText(body[path]) && TextOf(body[path]) == [] ==> c == Rejected(Required(path))
    ensures path in body && body[path] != Null && !IsText(body[path]) ==> c == Rejected(CastFailed(path))
  {
    if path !in body then
      if default.Some? then Accepted(default.value) else Rejected(Required(path))
    else if body[path] == Null then Rejected(Required(path))
    else if !IsText(body[path]) then Rejected(CastFailed(path))
    else
      var s := TextOf(body[path]);
      if s == [] then Rejected(Required(path))
      else if parse(s).Some? then Accepted(parse(s).value)
      else Rejected(NotInEnum(path, s))
  }

  /** `{ type: Date, required: true, default: Date.now }`; `now` is the clock
      reading. Dates are integer timestamps. */
  function Timestamp(body: Payload, path: string, now: int): (c: Checked<int>)
    ensures path !in body ==> c == Accepted(now)
    ensures path in body ==> (c.Accepted? <==> body[path].Num?)
    ensures path in body && c.Accepted? ==> c.value == body[path].n
    ensures path in body && body[path] == Null ==> c == Rejected(Required(path))
    ensures path in body && body[path] != Null && !body[path].Num? ==> c == Rejected(CastFailed(path))
  {
    if path !in body then Accepted(now)
    else match body[path]
      case Null => Rejected(Required(path))
      case Num(t) => Accepted(t)
      case _ => Rejected(CastFailed(path))
  }

  /** Whether a named date path is valid does not depend on the clock. */
  lemma TimestampErrors(body: Payload, path: string, now1: int, now2: int)
    requires path in body
    ensures Errors(Timestamp(body, path, now1)) == Errors(Timestamp(body, path, now2))
  {
  }

  /** `{ type: ObjectId, ref: ..., required: true }`. */
  function Reference(body: Payload, path: string): (c: Checked<nat>)
    ensures c.Accepted? <==> path in body && body[path].Oid?
    ensures c.Accepted? ==> c.value == body[path].id
    ensures Unset(body, path) ==> c == Rejected(Required(path))
    ensures !Unset(body, path) && !body[path].Oid? ==> c == Rejected(CastFailed(path))
  {
    if Unset(body, path) then Rejected(Required(path))
    else match body[path]
      case Oid(id) => Accepted(id)
      case _ => Rejected(CastFailed(path))
  }

  /** An update sets only the paths its body names: an absent path keeps its
      current value, a named one goes through the path's reader. */
  function Keep<T>(body: Payload, path: string, current: T, fromBody: Checked<T>): (c: Checked<T>)
    ensures path !in body ==> c == Accepted(current)
    ensures path in body ==> c == fromBody
  {
    if path in body then fromBody else Accepted(current)
  }

  /** An update path contributes the violation of its reader exactly when
      the body names it. */
  lemma KeepErrors<T>(body: Payload, path: string, current: T, fromBody: Checked<T>)
    ensures Errors(Keep(body, path, current, fromBody)) == Supplied(body, path, fromBody)
  {
  }

  /** A trimmed, non-empty string is stored as it is. */
  lemma RequiredTextOf(body: Payload, path: string, s: string)
    requires path in body && body[path] == Str(s) && s != [] && IsTrimmed(s)
    ensures RequiredText(body, path) == Accepted(s)
  {
    TrimTrimmed(s);
  }

  /** A number at or above the minimum is stored as it is. */
  lemma NumberOf(body: Payload, path: string, min: int, default: Option<int>, n: int)
    requires default.Some? ==> default.value >= min
    requires path in body && body[path] == Num(n) && n >= min
    ensures Number(body, path, min, default) == Accepted(n)
  {
  }

  /** A string in ObjectId form given for a text path is text: it is
      stored as its 24 hex digits. */
  lemma ObjectIdShapedText(body: Payload, path: string, id: nat)
    requires path in body && body[path] == Oid(id)
    ensures RequiredText(body, path) == Accepted(OidText(id))
    ensures OptionalText(body, path) == Accepted(Some(OidText(id)))
  {
    var t := OidText(id);
    assert !Unset(body, path) && IsText(body[path]);
    assert TextOf(body[path]) == t;
    TrimTrimmed(t);
    assert |t| == 24;
  }

  /** A string in ObjectId form given for an enum path that lists no such
      name is an enum violation, not a cast failure. */
  lemma ObjectIdShapedChoice<E>(body: Payload, path: string, parse: string -> Option<E>, default: Option<E>, id: nat)
    requires path in body && body[path] == Oid(id)
    requires parse(OidText(id)).None?
    ensures Choice(body, path, parse, default) == Rejected(NotInEnum(path, OidText(id)))
  {
  }

  /** A null optional path is unset; a trimmed string is stored as it is. */
  lemma OptionalTextOf(body: Payload, path: string, d: Option<string>)
    requires d.None? ==> path in body && body[path] == Null
    requires d.Some? ==> path in body && body[path] == Str(d.value) && IsTrimmed(d.value)
    ensures OptionalText(body, path) == Accepted(d)
  {
    if d.Some? {
      TrimTrimmed(d.value);
      assert !Unset(body, path) && IsText(body[path]);
    } else {
      assert Unset(body, path);
    }
  }

  /** A listed enum name is stored as the value it names. */
  lemma ChoiceOf<E>(body: Payload, path: string, parse: string -> Option<E>, default: Option<E>, name: string, e: E)
    requires path in body && body[path] == Str(name) && name != [] && parse(name) == Some(e)
    ensures Choice(body, path, parse, default) == Accepted(e)
  {
  }

  /** The violation an update body causes at one path: none when the body
      does not name the path. */
  function Supplied<T>(body: Payload, path: string, c: Checked<T>): (r: seq<Violation>)
    ensures path !in body ==> r == []
    ensures path in body ==> r == Errors(c)
  {
    if path in body then Errors(c) else []
  }

  /** Cast failures among a list of path outcomes. */
  function CastFailures(vs: seq<Violation>): (r: seq<Violation>)
    ensures forall v :: v in r <==> v in vs && v.CastFailed?
  {
    if vs == [] then []
    else (if vs[0].CastFailed? then [vs[0]] else []) + CastFailures(vs[1..])
  }
}
