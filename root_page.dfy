/**
 * The page at `/` (app/page.js): the same two guarded inputs and minutes
 * derivation as the main screen, without saving.
 */
module RootPage {
  import opened EquipmentForm

  class AuthentPage {
    var equipmentType: string
    var serviceMinutes: string

    predicate Valid()
      reads this
    {
      FormValid(equipmentType, serviceMinutes)
    }

    constructor ()
      ensures Valid() && equipmentType == "" && serviceMinutes == ""
    {
      equipmentType, serviceMinutes := "", "";
    }

    /** `serviceMinutesNum`: null for the empty field, otherwise its integer value. */
    function ServiceMinutesNum(): (m: MinutesValue)
      reads this
      ensures Valid() ==> m != NotANumber
      ensures Valid() ==> (m == NoMinutes <==> serviceMinutes == "")
      ensures Valid() && serviceMinutes != "" ==> m == Whole(SignedValue(serviceMinutes))
    {
      var m := Minutes(serviceMinutes);
      if Valid() then MinutesOfAccepted(serviceMinutes); m else m
    }

    /** Accepted text replaces the equipment type; the minutes field is never touched. */
    method HandleEquipmentTypeChange(value: string)
      modifies this`equipmentType
      ensures equipmentType == if AcceptsEquipmentType(value) then value else old(equipmentType)
      ensures serviceMinutes == old(serviceMinutes)
      ensures old(Valid()) ==> Valid()
    {
      if |value| <= EquipmentTypeMaxLength {
        equipmentType := value;
      }
    }

    /** Accepted text replaces the minutes; the equipment type is never touched. */
    method HandleServiceMinutesChange(value: string)
      modifies this`serviceMinutes
      ensures serviceMinutes == if AcceptsServiceMinutes(value) then value else old(serviceMinutes)
      ensures equipmentType == old(equipmentType)
      ensures old(Valid()) ==> Valid()
    {
      if value == "" || IsSignedInteger(value) {
        serviceMinutes := value;
      }
    }
  }
}
