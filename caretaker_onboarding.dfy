/** The caretaker onboarding modal: the commission and payout preview computed from the
    price field, and the form state with its change, location, photo and submit handlers. */
module CaretakerOnboarding {
  import opened Text
  import opened Lists
  import FileUpload
  import V = Validation

  /** `Number(s)` over integers: surrounding white space is ignored, the empty string is 0,
      and an optional sign followed by digits only is a number; anything else is `NaN`. */
  function StrictNumber(s: string): (r: V.NumberValue)
  {
    var t := Trim(s);
    if t == "" then V.Finite(0)
    else
      var negative := t[0] == '-';
      var body := if t[0] == '-' || t[0] == '+' then t[1..] else t;
      if body != "" && forall i :: 0 <= i < |body| ==> V.IsDigit(body[i]) then
        var v: int := DigitsValue(body);
        V.Finite(if negative then -v else v)
      else V.NaN
  }

  /** `Number(form.price) || 0`: `NaN` becomes 0. */
  function Price(priceField: string): (p: int)
  {
    var n := StrictNumber(priceField);
    if n.NaN? then 0 else n.value
  }

  /** An empty or blank field and anything that is not a number give a price of 0; a
      decimal rendering gives its own value. */
  lemma PriceSpec(priceField: string, n: nat)
    ensures Trim(priceField) == "" ==> Price(priceField) == 0
    ensures StrictNumber(priceField).NaN? ==> Price(priceField) == 0
    ensures Price(Decimal(n)) == n
  {
    StrictNumberOfDigits(Decimal(n));
    DecimalRoundTrip(n);
  }

  /** A non-empty run of digits is read as its value. */
  lemma StrictNumberOfDigits(d: string)
    requires d != [] && forall i :: 0 <= i < |d| ==> '0' <= d[i] <= '9'
    ensures StrictNumber(d) == V.Finite(DigitsValue(d))
  {
    assert !IsSpace(d[0]) && !IsSpace(d[|d| - 1]);
    TrimUnpadded(d);
    assert d[0] != '-' && d[0] != '+';
    assert forall i :: 0 <= i < |d| ==> V.IsDigit(d[i]);
  }

  /** `Math.round(price * 0.1)` for an integer price: a tenth, rounded half up. */
  function Commission(price: int): (c: int)
  {
    (price + 5) / 10
  }

  function Payout(price: int): (p: int)
  {
    price - Commission(price)
  }

  /** The preview splits the price exactly, and the commission is the integer nearest to a
      tenth of it, halves going up. */
  lemma CommissionSplit(price: int)
    ensures Commission(price) + Payout(price) == price
    ensures 10 * Commission(price) - 5 <= price < 10 * Commission(price) + 5
    ensures price >= 0 ==> 0 <= Commission(price) <= price && 0 <= Payout(price) <= price
  {
    var c := Commission(price);
    assert c * 10 <= price + 5 < c * 10 + 10;
  }

  /** `checked ? [...facilities, value] : facilities.filter(f => f !== value)`. */
  function ToggleFacility(facilities: seq<string>, value: string, checked: bool): (r: seq<string>)
  {
    if checked then facilities + [value] else Filter(IsNot(value), facilities)
  }

  function IsNot(value: string): string -> bool {
    f => f != value
  }

  /** Checking appends at the end and leaves the others as they were; a facility can be
      listed twice. */
  lemma CheckAppends(facilities: seq<string>, value: string)
    ensures ToggleFacility(facilities, value, true)[..|facilities|] == facilities
    ensures |ToggleFacility(facilities, value, true)| == |facilities| + 1
    ensures ToggleFacility(facilities, value, true)[|facilities|] == value
  {
  }

  /** Unchecking removes every occurrence of the value and keeps the other entries in order. */
  lemma UncheckRemovesAll(facilities: seq<string>, value: string)
    ensures value !in ToggleFacility(facilities, value, false)
    ensures forall f :: f in ToggleFacility(facilities, value, false) <==> f in facilities && f != value
    ensures IsSubsequence(ToggleFacility(facilities, value, false), facilities)
  {
    forall f ensures f in Filter(IsNot(value), facilities) <==> f in facilities && f != value {
      FilterMembership(IsNot(value), facilities, f);
    }
    FilterIsSubsequence(IsNot(value), facilities);
  }

  /** Checking and then unchecking the same facility leaves the list with no occurrence of
      it, and otherwise as it was. */
  lemma CheckThenUncheck(facilities: seq<string>, value: string)
    ensures ToggleFacility(ToggleFacility(facilities, value, true), value, false)
         == ToggleFacility(facilities, value, false)
  {
    FilterAppend(IsNot(value), facilities, [value]);
    assert Filter(IsNot(value), [value]) == [];
  }

  /** The modal's form. */
  datatype OnboardingForm = OnboardingForm(
    name: string, location: string, price: string, roomType: string,
    facilities: seq<string>, description: string,
    photos: seq<FileUpload.FileInfo>, coordinates: (real, real))

  /** The form the modal opens with and returns to after a submission. */
  const InitialForm := OnboardingForm("", "", "", "", [], "", [], (6.5244, 3.3792))

  /** `{ ...prev, [name]: value }` for the text inputs, the select and the text area. */
  function SetField(form: OnboardingForm, name: string, value: string): (r: OnboardingForm)
  {
    if name == "name" then form.(name := value)
    else if name == "location" then form.(location := value)
    else if name == "price" then form.(price := value)
    else if name == "roomType" then form.(roomType := value)
    else if name == "description" then form.(description := value)
    else form
  }

  /** The form state of the modal and its loading flag. */
  class Modal {
    var form: OnboardingForm
    var loading: bool

    constructor ()
      ensures form == InitialForm && !loading
    {
      form := InitialForm;
      loading := false;
    }

    /** The preview line under the price field. */
    function Preview(): (int, int, int)
      reads this
    {
      var p := Price(form.price);
      (p, Commission(p), Payout(p))
    }

    /** `handleChange`: the facility checkboxes toggle their value, every other input sets
        the field of its name and nothing else. */
    method HandleChange(name: string, value: string, checked: bool)
      modifies this`form
      ensures name == "facilities" ==>
        form == old(form).(facilities := ToggleFacility(old(form).facilities, value, checked))
      ensures name != "facilities" ==> form == SetField(old(form), name, value)
    {
      if name == "facilities" {
        form := form.(facilities := ToggleFacility(form.facilities, value, checked));
      } else {
        form := SetField(form, name, value);
      }
    }

    /** `handleLocationSelect`: the map pick sets the coordinates and the address. */
    method HandleLocationSelect(coordinates: (real, real), address: string)
      modifies this`form
      ensures form == old(form).(coordinates := coordinates, location := address)
    {
      form := form.(coordinates := coordinates, location := address);
    }

    /** `handleFilesChange`: the upload widget's list replaces the photos. */
    method HandleFilesChange(files: seq<FileUpload.FileInfo>)
      modifies this`form
      ensures form == old(form).(photos := files)
    {
      form := form.(photos := files);
    }

    /** `handleSubmit`, first half: the modal shows that it is busy. */
    method HandleSubmit()
      modifies this`loading
      ensures loading
    {
      loading := true;
    }

    /** `handleSubmit`, the delayed half: the form goes back to its initial values. */
    method SubmitDelayElapsed()
      modifies this
      ensures form == InitialForm && !loading
    {
      form := InitialForm;
      loading := false;
    }
  }

  /** A field update touches exactly the named field and none of the others. */
  lemma SetFieldOnly(form: OnboardingForm, name: string, value: string)
    ensures var r := SetField(form, name, value);
      && r.facilities == form.facilities && r.photos == form.photos && r.coordinates == form.coordinates
      && (r.name == (if name == "name" then value else form.name))
      && (r.location == (if name == "location" then value else form.location))
      && (r.price == (if name == "price" then value else form.price))
      && (r.roomType == (if name == "roomType" then value else form.roomType))
      && (r.description == (if name == "description" then value else form.description))
  {
  }
}
