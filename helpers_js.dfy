/** The itinerary page's text helpers, which turn whatever the backend sent
    into display text: `safeText`, `safeArrayText` and `formatTypes`.

    Values are JSON values as the browser parsed them. JavaScript's
    `String(number)` and `JSON.stringify` are the caller's `numberText` and
    `stringify`. */
module FrontendHelpers {
  import opened Text
  import opened JsonModel

  /** JavaScript truthiness of a parsed JSON value: arrays and objects are
      always truthy, even when empty. */
  predicate JsTruthy(v: Json)
  {
    match v
    case Null => false
    case Bool(b) => b
    case Int(i) => i != 0
    case Float(f) => f != 0.0
    case Str(s) => s != []
    case Arr(_) => true
    case Obj(_) => true
  }

  /** `value.text` on an object; arrays have no `text` property. */
  function TextProperty(v: Json): Json
  {
    if v.Obj? then
      match Lookup(v.fields, "text")
      case Some(t) => t
      case None => Null
    else Null
  }

  /** `safeText(value)`: the result is a string except when an object's
      truthy `text` property is returned as it is. */
  function SafeText(value: Json, numberText: real -> string, stringify: Json -> string): (r: Json)
    ensures !JsTruthy(value) ==> r == Str("")
    ensures JsTruthy(value) && value.Str? ==> r == value
    ensures JsTruthy(value) && value.Int? ==> r == Str(numberText(value.i as real))
    ensures JsTruthy(value) && value.Float? ==> r == Str(numberText(value.f))
    ensures (value.Obj? || value.Arr?) && JsTruthy(TextProperty(value)) ==> r == TextProperty(value)
    ensures (value.Obj? || value.Arr?) && !JsTruthy(TextProperty(value)) ==> r == Str(stringify(value))
    ensures !r.Str? ==> value.Obj? && r == TextProperty(value)
  {
    if !JsTruthy(value) then Str("")
    else
      match value
      case Str(_) => value
      case Int(i) => Str(numberText(i as real))
      case Float(f) => Str(numberText(f))
      case Bool(_) => Str("true")
      case _ =>
        if JsTruthy(TextProperty(value)) then TextProperty(value)
        else Str(stringify(value))
  }

  /** `safeArrayText(arr)`: nothing for a value that is not an array,
      otherwise one text per item, in order. */
  function SafeArrayText(arr: Json, numberText: real -> string, stringify: Json -> string): (r: seq<Json>)
    ensures !arr.Arr? ==> r == []
    ensures arr.Arr? ==> |r| == |arr.items|
    ensures arr.Arr? ==> forall i :: 0 <= i < |r| ==> r[i] == SafeText(arr.items[i], numberText, stringify)
  {
    if !arr.Arr? then []
    else seq(|arr.items|, i requires 0 <= i < |arr.items| => SafeText(arr.items[i], numberText, stringify))
  }

  /** A text made of strings has only strings. */
  lemma SafeArrayTextStrings(arr: Json, numberText: real -> string, stringify: Json -> string)
    requires arr.Arr? && forall i :: 0 <= i < |arr.items| ==> !arr.items[i].Obj?
    ensures forall t :: t in SafeArrayText(arr, numberText, stringify) ==> t.Str?
  {
  }

  // ---------------------------------------------------------------------
  // formatTypes
  // ---------------------------------------------------------------------

  /** `\w` in a JavaScript regular expression. */
  predicate IsWordChar(c: char)
  {
    IsLetter(c) || IsDigit(c) || c == '_'
  }

  /** `s.replace(/_/g, " ")` */
  function Underscores(s: string): (r: string)
    ensures |r| == |s|
    ensures forall i :: 0 <= i < |s| ==> r[i] == if s[i] == '_' then ' ' else s[i]
  {
    seq(|s|, i requires 0 <= i < |s| => if s[i] == '_' then ' ' else s[i])
  }

  /** A word character at a word boundary: the first of the text, or one
      after a character that is not a word character. */
  predicate StartsWord(s: string, i: int)
    requires 0 <= i < |s|
  {
    IsWordChar(s[i]) && (i == 0 || !IsWordChar(s[i - 1]))
  }

  /** `s.replace(/\b\w/g, c => c.toUpperCase())` */
  function CapitalizeWords(s: string): (r: string)
    ensures |r| == |s|
  {
    seq(|s|, i requires 0 <= i < |s| => if StartsWord(s, i) then UpperChar(s[i]) else s[i])
  }

  /** One formatted type. */
  function FormatType(t: string): string
  {
    CapitalizeWords(Underscores(t))
  }

  /** A formatted type keeps its length, has no underscore left, starts
      every word with a character that is not a lower-case letter, and
      keeps every other character but the underscores as it was. */
  lemma FormatTypeFacts(t: string)
    ensures var r := FormatType(t);
            && |r| == |t|
            && '_' !in r
            && (forall i :: 0 <= i < |t| && StartsWord(Underscores(t), i) ==> !IsLowerAscii(r[i]))
            && (forall i :: 0 <= i < |t| && !StartsWord(Underscores(t), i) ==>
                  r[i] == if t[i] == '_' then ' ' else t[i])
  {
    var u := Underscores(t);
    var r := FormatType(t);
    forall i | 0 <= i < |t| ensures r[i] != '_'
    {
      assert u[i] != '_';
    }
  }

  /** `safeArrayText(types).map(...).join(", ")`: an item that is not a
      string has no `replace` and makes the call throw. */
  function FormatTypes(types: Json, numberText: real -> string, stringify: Json -> string): (r: Result<string>)
    ensures !types.Arr? || types.items == [] ==> r == Ok("")
  {
    var texts := SafeArrayText(types, numberText, stringify);
    if AllText(texts) then Ok(Join(", ", seq(|texts|, i requires 0 <= i < |texts| => FormatType(texts[i].s))))
    else Raise(TypeError)
  }

  /** The formatted list never holds an underscore. */
  lemma FormatTypesNoUnderscore(types: Json, numberText: real -> string, stringify: Json -> string)
    requires FormatTypes(types, numberText, stringify).Ok?
    ensures '_' !in FormatTypes(types, numberText, stringify).value
  {
    var texts := SafeArrayText(types, numberText, stringify);
    var parts := seq(|texts|, i requires 0 <= i < |texts| => FormatType(texts[i].s));
    forall p | p in parts ensures '_' !in p
    {
      var i :| 0 <= i < |parts| && parts[i] == p;
      FormatTypeFacts(texts[i].s);
    }
    if '_' in Join(", ", parts) {
      JoinChars(", ", parts, '_');
    }
  }

  /** A type that is a JSON string formats as the words of that string. */
  lemma FormatTypesOfStrings(names: seq<string>, numberText: real -> string, stringify: Json -> string)
    requires forall i :: 0 <= i < |names| ==> names[i] != []
    ensures var types := Arr(seq(|names|, i requires 0 <= i < |names| => Str(names[i])));
            FormatTypes(types, numberText, stringify) ==
              Ok(Join(", ", seq(|names|, i requires 0 <= i < |names| => FormatType(names[i]))))
  {
    var types := Arr(seq(|names|, i requires 0 <= i < |names| => Str(names[i])));
    var texts := SafeArrayText(types, numberText, stringify);
    assert forall i :: 0 <= i < |texts| ==> texts[i] == Str(names[i]);
    assert seq(|texts|, i requires 0 <= i < |texts| => FormatType(texts[i].s)) ==
           seq(|names|, i requires 0 <= i < |names| => FormatType(names[i]));
  }
}
