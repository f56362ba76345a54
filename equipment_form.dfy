/**
 * The equipment form's own logic, written out identically in app/MainScreen.js
 * and app/page.js: the two input guards, the derivation of minutes from the
 * accepted text, and (MainScreen only) the record a save inserts.
 */
module EquipmentForm {
  import opened Wrappers
  import opened Backend
  import opened Text
  import opened JsNumber

  const EquipmentTypeMaxLength := 100
  const EntriesTable := "equipment_entries"

  /** The equipment-type guard: at most 100 characters. */
  predicate AcceptsEquipmentType(value: string)
  {
    |value| <= EquipmentTypeMaxLength
  }

  /** The regular expression `^-?\d+$`. */
  predicate IsSignedInteger(value: string)
  {
    if |value| > 0 && value[0] == '-' then |value| > 1 && AllDigits(value[1..])
    else |value| > 0 && AllDigits(value)
  }

  /** The service-minutes guard: empty, or a signed integer. */
  predicate AcceptsServiceMinutes(value: string)
  {
    value == "" || IsSignedInteger(value)
  }

  /** The two fields as the handlers keep them. */
  predicate FormValid(equipmentType: string, serviceMinutes: string)
  {
    AcceptsEquipmentType(equipmentType) && AcceptsServiceMinutes(serviceMinutes)
  }

  /** `^-?\d+$` matches exactly a non-empty digit string with an optional minus sign in front. */
  lemma SignedIntegerShape(value: string)
    ensures IsSignedInteger(value) <==>
      exists d :: |d| > 0 && AllDigits(d) && (value == d || value == "-" + d)
  {
    if IsSignedInteger(value) {
      if value[0] == '-' {
        assert value == "-" + value[1..];
      }
    }
    if exists d :: |d| > 0 && AllDigits(d) && (value == d || value == "-" + d) {
      var d :| |d| > 0 && AllDigits(d) && (value == d || value == "-" + d);
      if value == "-" + d {
        assert value[1..] == d;
      }
    }
  }

  /** The value a signed-integer string denotes. */
  function SignedValue(value: string): int
    requires IsSignedInteger(value)
  {
    if value[0] == '-' then -(DecimalValue(value[1..]) as int) else DecimalValue(value)
  }

  /** The derived minutes: `null`, an integer, or NaN when `parseInt` finds no digits. */
  datatype MinutesValue = NoMinutes | Whole(n: int) | NotANumber

  /** `value === "" || value === "-" ? null : parseInt(value, 10)`. */
  function Minutes(value: string): MinutesValue
  {
    if value == "" || value == "-" then NoMinutes
    else match ParseInt10(value)
      case None => NotANumber
      case Some(n) => Whole(n)
  }

  /**
   * On accepted text the `"-"` test never fires and `parseInt` never yields
   * NaN: the empty text gives null, any other its signed decimal value.
   */
  lemma MinutesOfAccepted(value: string)
    requires AcceptsServiceMinutes(value)
    ensures value != "-"
    ensures Minutes(value) == if value == "" then NoMinutes else Whole(SignedValue(value))
  {
    if value != "" {
      if value[0] == '-' {
        assert value == "-" + value[1..];
        ParseNegatedDigits(value[1..]);
      } else {
        ParseDigits(value);
      }
    }
  }

  /** Every integer's decimal form passes the guard and derives back to that integer. */
  lemma MinutesOfIntString(n: int)
    ensures AcceptsServiceMinutes(IntString(n))
    ensures Minutes(IntString(n)) == Whole(n)
  {
    var d := DecimalString(if n < 0 then -n else n);
    SignedIntegerShape(IntString(n));
    ParseIntString(n);
    assert IntString(n) != "" && IntString(n) != "-" by {
      if n < 0 { assert IntString(n) == "-" + d && |d| > 0; }
    }
  }

  /** `value.trim() || null`. */
  function TrimmedOrNull(value: string): Option<string>
  {
    var t := Trim(value);
    if t == "" then None else Some(t)
  }

  /** The record `handleSave` inserts into `equipment_entries`. */
  datatype EquipmentEntry = EquipmentEntry(userId: string, equipmentType: Option<string>,
                                           serviceMinutes: MinutesValue, isActive: bool)

  function NewEntry(user: User, equipmentType: string, serviceMinutes: string): (e: EquipmentEntry)
    ensures e.userId == user.id && e.isActive
    ensures e.serviceMinutes == Minutes(serviceMinutes)
    ensures e.equipmentType.None? <==> forall i :: 0 <= i < |equipmentType| ==> IsJsSpace(equipmentType[i])
    ensures e.equipmentType.Some? ==> e.equipmentType.value == Trim(equipmentType)
    ensures e.equipmentType.Some? ==>
      var t := e.equipmentType.value;
      t != "" && |t| <= |equipmentType| && !IsJsSpace(t[0]) && !IsJsSpace(t[|t| - 1])
  {
    TrimIsMiddle(equipmentType);
    EquipmentEntry(user.id, TrimmedOrNull(equipmentType), Minutes(serviceMinutes), true)
  }

  /** From a valid form the record has at most 100 characters of equipment type and never NaN minutes. */
  lemma EntryOfValidForm(user: User, equipmentType: string, serviceMinutes: string)
    requires FormValid(equipmentType, serviceMinutes)
    ensures var e := NewEntry(user, equipmentType, serviceMinutes);
      (e.equipmentType.Some? ==> |e.equipmentType.value| <= EquipmentTypeMaxLength)
      && e.serviceMinutes != NotANumber
  {
    MinutesOfAccepted(serviceMinutes);
  }
}
