/**
 * The vocabulary shared by every Lightning component of the model: the
 * JavaScript values the components read and write, the settled results of
 * the platform calls they await, and the log of side effects they produce.
 */
module Lwc {

  datatype Option<+T> = None | Some(value: T)

  /** A JavaScript value as the components see it; `Absent` is `undefined` or `null`. */
  datatype JsValue = Absent | Str(s: string) | Num(n: int)

  /** JavaScript truthiness: `undefined`, `null`, `''` and `0` are falsy. */
  predicate Truthy(v: JsValue) {
    match v
    case Absent => false
    case Str(s) => s != ""
    case Num(n) => n != 0
  }

  /** The JavaScript expression `a || b`. */
  function Or(a: JsValue, b: JsValue): JsValue {
    if Truthy(a) then a else b
  }

  /** A plain object whose properties hold values; a missing key reads as `undefined`. */
  type Record = map<string, JsValue>

  function Get(r: Record, key: string): JsValue {
    if key in r then r[key] else Absent
  }

  /** A rejected Apex call: `error.body?.message` and `error.message`. */
  datatype ApexError = ApexError(bodyMessage: JsValue, message: JsValue)

  /** The settled value of an awaited call. */
  datatype Outcome<+T> = Ok(value: T) | Err(error: ApexError)

  /** What a `@wire` adapter hands to its handler: data, an error, or neither yet. */
  datatype WireResult<+T> = WireData(data: seq<T>) | WireError(error: ApexError) | WirePending

  /**
   * One observable side effect, in the order it happens: a toast, a dispatched
   * `CustomEvent`, a `LightningModal.close(result)`, a modal opened by a list,
   * a `refreshApex` of the wired data, or a call of an Apex method `C`.
   */
  datatype Effect<+C> =
    | Toast(title: string, message: JsValue, variant: string)
    | Event(name: string, detail: JsValue)
    | Close(result: JsValue)
    | OpenModal(recordId: JsValue)
    | Refetch
    | Call(call: C)

  predicate HasCall<C>(effs: seq<Effect<C>>) {
    exists i :: 0 <= i < |effs| && effs[i].Call?
  }

  predicate HasClose<C>(effs: seq<Effect<C>>) {
    exists i :: 0 <= i < |effs| && effs[i].Close?
  }

  predicate HasEvent<C>(effs: seq<Effect<C>>) {
    exists i :: 0 <= i < |effs| && effs[i].Event?
  }

  /** `e.body?.message || e.message`: the upstream text, the body's message first. */
  function ErrorMessage(e: ApexError): (m: JsValue)
    ensures m == e.bodyMessage || m == e.message
    ensures Truthy(e.bodyMessage) ==> m == e.bodyMessage
    ensures !Truthy(e.bodyMessage) ==> m == e.message
  {
    Or(e.bodyMessage, e.message)
  }

  // ---------------------------------------------------------------------
  // String.prototype.trim
  // ---------------------------------------------------------------------

  /** The characters `trim` removes: ECMAScript WhiteSpace and LineTerminator. */
  predicate IsJsWhitespace(c: char) {
    || c == '\t' || c == '\n' || c == '\U{000B}' || c == '\U{000C}' || c == '\r'
    || c == ' ' || c == '\U{00A0}' || c == '\U{1680}'
    || ('\U{2000}' <= c <= '\U{200A}')
    || c == '\U{2028}' || c == '\U{2029}' || c == '\U{202F}' || c == '\U{205F}'
    || c == '\U{3000}' || c == '\U{FEFF}'
  }

  function TrimStart(s: string): string {
    if s != [] && IsJsWhitespace(s[0]) then TrimStart(s[1..]) else s
  }

  function TrimEnd(s: string): string {
    if s != [] && IsJsWhitespace(s[|s| - 1]) then TrimEnd(s[..|s| - 1]) else s
  }

  function Trim(s: string): string {
    TrimEnd(TrimStart(s))
  }

  predicate AllWhitespace(s: string) {
    forall i :: 0 <= i < |s| ==> IsJsWhitespace(s[i])
  }

  lemma {:induction false} TrimStartEmptyIff(s: string)
    ensures TrimStart(s) == "" <==> AllWhitespace(s)
    ensures TrimStart(s) != "" ==> !IsJsWhitespace(TrimStart(s)[0])
  {
    if s != [] && IsJsWhitespace(s[0]) {
      TrimStartEmptyIff(s[1..]);
      assert AllWhitespace(s) <==> AllWhitespace(s[1..]) by {
        if AllWhitespace(s[1..]) {
          forall i | 0 <= i < |s| ensures IsJsWhitespace(s[i]) {
            if i > 0 { assert s[i] == s[1..][i - 1]; }
          }
        }
      }
    } else if s != [] {
      assert !IsJsWhitespace(s[0]);
    }
  }

  lemma {:induction false} TrimEndEmptyIff(s: string)
    ensures TrimEnd(s) == "" <==> AllWhitespace(s)
  {
    if s != [] && IsJsWhitespace(s[|s| - 1]) {
      var p := s[..|s| - 1];
      TrimEndEmptyIff(p);
      assert AllWhitespace(s) <==> AllWhitespace(p) by {
        if AllWhitespace(p) {
          forall i | 0 <= i < |s| ensures IsJsWhitespace(s[i]) {
            if i < |s| - 1 { assert s[i] == p[i]; }
          }
        }
      }
    } else if s != [] {
      assert !IsJsWhitespace(s[|s| - 1]);
    }
  }

  /** `s.trim() === ''` holds exactly when every character of `s` is whitespace. */
  lemma TrimEmptyIffAllWhitespace(s: string)
    ensures Trim(s) == "" <==> AllWhitespace(s)
  {
    var t := TrimStart(s);
    TrimStartEmptyIff(s);
    TrimEndEmptyIff(t);
    if t != "" {
      assert !AllWhitespace(t) by { assert !IsJsWhitespace(t[0]); }
    }
  }

  // ---------------------------------------------------------------------
  // Draft records of the editor modals
  // ---------------------------------------------------------------------

  /** The object literal a modal starts from: every field `''`. */
  function BlankDraft(fields: set<string>): (d: Record)
    ensures d.Keys == fields
    ensures forall f :: f in fields ==> d[f] == Str("")
  {
    map f | f in fields :: Str("")
  }

  /**
   * The normalised local shape `{F: rec.F || '', ...}` built from a loaded
   * record: exactly the editor's fields, none of them undefined, a
   * truthy loaded value kept and any falsy one replaced by `''`.
   */
  function Normalise(fields: set<string>, rec: Record): (d: Record)
    ensures d.Keys == fields
    ensures forall f :: f in fields ==> d[f] != Absent
    ensures forall f :: f in fields && Truthy(Get(rec, f)) ==> d[f] == Get(rec, f)
    ensures forall f :: f in fields && !Truthy(Get(rec, f)) ==> d[f] == Str("")
  {
    map f | f in fields :: Or(Get(rec, f), Str(""))
  }

  /** Loading a record that was already normalised changes nothing. */
  lemma NormaliseIdempotent(fields: set<string>, rec: Record)
    ensures Normalise(fields, Normalise(fields, rec)) == Normalise(fields, rec)
  {
    var d := Normalise(fields, rec);
    var dd := Normalise(fields, d);
    forall f | f in fields ensures dd[f] == d[f] {
      assert Get(d, f) == d[f];
    }
  }

  /** Normalising the blank draft gives the blank draft back. */
  lemma NormaliseBlank(fields: set<string>)
    ensures Normalise(fields, BlankDraft(fields)) == BlankDraft(fields)
  {
    var b := BlankDraft(fields);
    forall f | f in fields ensures Normalise(fields, b)[f] == b[f] {
      assert Get(b, f) == Str("");
    }
  }

  // ---------------------------------------------------------------------
  // Picklist options
  // ---------------------------------------------------------------------

  /** An option of a combobox or dual listbox: `{label, value}`. */
  datatype PicklistOption = PicklistOption(labelText: string, value: string)

  /** `values.map(v => ({label: v, value: v}))` */
  function Options(values: seq<string>): (opts: seq<PicklistOption>)
    ensures |opts| == |values|
    ensures forall i :: 0 <= i < |values| ==> opts[i].labelText == values[i] && opts[i].value == values[i]
  {
    seq(|values|, i requires 0 <= i < |values| => PicklistOption(values[i], values[i]))
  }

  function OptionValues(opts: seq<PicklistOption>): seq<string> {
    seq(|opts|, i requires 0 <= i < |opts| => opts[i].value)
  }

  /** The values offered are exactly the values fetched, in order. */
  lemma OptionsRoundTrip(values: seq<string>)
    ensures OptionValues(Options(values)) == values
  {
  }
}
