/**
 * The create-form checks (app.js 473-510). The name arrives already trimmed.
 * The duration text arrives as what `Number(trimmed text)` made of it; the
 * string-to-number conversion itself is not modelled.
 */
module CreateForm {
  import opened Wrappers

  /** The trimmed duration field as `Number()` reads it. */
  datatype DurationInput =
    | Blank                 // the trimmed text is ''
    | NotANumber            // Number(text) is NaN
    | NotWhole              // a number that is not an integer (12.5, Infinity)
    | Whole(minutes: int)   // an integer value

  /** The form's refusals, in the order the checks run. */
  datatype FormError = NameRequired | DurationRequired | NotNumeric | NotInteger | BelowOne | AboveMax

  /** The text shown in the form's error line: never empty, so a refusal is always visible. */
  function Message(e: FormError): (m: string)
    ensures |m| > 0
  {
    match e
    case NameRequired => "Please enter a timer name"
    case DurationRequired => "Please enter a duration"
    case NotNumeric => "Duration must be a number"
    case NotInteger => "Duration must be a whole number"
    case BelowOne => "Duration must be at least 1 minute"
    case AboveMax => "Duration cannot exceed 999 minutes"
  }

  /** No two refusals share a text: the error line tells which check refused. */
  lemma MessagesDistinct(e1: FormError, e2: FormError)
    ensures Message(e1) == Message(e2) ==> e1 == e2
  {
  }

  /** Position of a check in the chain. */
  function Rank(e: FormError): nat {
    match e
    case NameRequired => 0
    case DurationRequired => 1
    case NotNumeric => 2
    case NotInteger => 3
    case BelowOne => 4
    case AboveMax => 5
  }

  /** Whether the check `e` refuses this input, on its own. */
  predicate Refuses(e: FormError, name: string, d: DurationInput) {
    match e
    case NameRequired => name == ""
    case DurationRequired => d.Blank?
    case NotNumeric => d.NotANumber?
    case NotInteger => d.NotWhole?
    case BelowOne => d.Whole? && d.minutes < 1
    case AboveMax => d.Whole? && d.minutes > 999
  }

  /**
   * The chain of early returns: the first check that refuses wins; when none
   * does, the accepted value is a whole number of minutes in [1, 999].
   */
  method Validate(name: string, d: DurationInput) returns (r: Result<int, FormError>)
    ensures r.Ok? <==> forall e :: !Refuses(e, name, d)
    ensures r.Ok? ==> d == Whole(r.value) && 1 <= r.value <= 999
    ensures r.Err? ==> Refuses(r.error, name, d)
    ensures r.Err? ==> forall e :: Rank(e) < Rank(r.error) ==> !Refuses(e, name, d)
  {
    if name == "" {
      assert Refuses(NameRequired, name, d);
      return Err(NameRequired);
    }
    if d.Blank? {
      assert Refuses(DurationRequired, name, d);
      return Err(DurationRequired);
    }
    if d.NotANumber? {
      assert Refuses(NotNumeric, name, d);
      return Err(NotNumeric);
    }
    if !d.Whole? {
      assert Refuses(NotInteger, name, d);
      return Err(NotInteger);
    }
    var minutes := d.minutes;
    if minutes < 1 {
      assert Refuses(BelowOne, name, d);
      return Err(BelowOne);
    }
    if minutes > 999 {
      assert Refuses(AboveMax, name, d);
      return Err(AboveMax);
    }
    return Ok(minutes);
  }

  /** The examples: 12.5 minutes, 0 minutes and 1000 minutes, each with a name given. */
  method ValidateExamples()
  {
    var r := Validate("Tea", NotWhole);
    assert r == Err(NotInteger) by { assert Refuses(NotInteger, "Tea", NotWhole); }
    r := Validate("Tea", Whole(0));
    assert r == Err(BelowOne) by { assert Refuses(BelowOne, "Tea", Whole(0)); }
    r := Validate("Tea", Whole(1000));
    assert r == Err(AboveMax) by { assert Refuses(AboveMax, "Tea", Whole(1000)); }
    r := Validate("", Whole(1000));
    assert r == Err(NameRequired) by { assert Refuses(NameRequired, "", Whole(1000)); }
  }
}
