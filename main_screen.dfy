/**
 * The signed-in screen (app/MainScreen.js): the guarded change handlers of its
 * two inputs, sign-out, and the save that inserts one equipment entry.
 */
module MainScreen {
  import opened Wrappers
  import opened Backend
  import opened EquipmentForm

  const NotSignedInMessage := "Not signed in."

  /** `{ error: message }` or `{ success: true }`. */
  datatype SaveStatus = Failed(error: string) | Saved

  /** What the screen does, in order: status setter calls, backend calls, router calls. */
  datatype Effect =
    | SetSaveStatus(status: Option<SaveStatus>)
    | SetSaving(saving: bool)
    | GetUser
    | Insert(table: string, entry: EquipmentEntry)
    | SignOut
    | Push(path: string)
    | Refresh

  /** Before position `i`, the last `saving` write set it to `b`. */
  predicate SavingAt(es: seq<Effect>, i: int, b: bool)
  {
    exists j :: 0 <= j < i <= |es| && es[j] == SetSaving(b)
      && forall k :: j < k < i ==> !es[k].SetSaving?
  }

  /** The status a save ends with. */
  function SaveResult(user: Option<User>, insertError: Option<string>): (status: SaveStatus)
    ensures status.Saved? <==> user.Some? && insertError.None?
  {
    if user.None? then Failed(NotSignedInMessage)
    else if insertError.Some? then Failed(insertError.value)
    else Saved
  }

  /** One run of `handleSave` over the current fields, given the backend's answers. */
  function SaveEffects(user: Option<User>, equipmentType: string, serviceMinutes: string,
                       insertError: Option<string>): seq<Effect>
  {
    [SetSaveStatus(None), SetSaving(true), GetUser]
    + match user
      case None => [SetSaveStatus(Some(Failed(NotSignedInMessage))), SetSaving(false)]
      case Some(u) =>
        [Insert(EntriesTable, NewEntry(u, equipmentType, serviceMinutes)), SetSaving(false),
         SetSaveStatus(Some(SaveResult(user, insertError)))]
  }

  /** Without a user the save shows "Not signed in." and inserts nothing. */
  lemma SaveWithoutUser(equipmentType: string, serviceMinutes: string, insertError: Option<string>)
    ensures var es := SaveEffects(None, equipmentType, serviceMinutes, insertError);
      (forall i :: 0 <= i < |es| ==> !es[i].Insert?)
      && es[3] == SetSaveStatus(Some(Failed(NotSignedInMessage))) && es[4] == SetSaving(false)
  {
  }

  /** With a user the save inserts exactly one record, the one `NewEntry` builds, while `saving` is on. */
  lemma {:induction false} SaveInsertsOnce(user: User, equipmentType: string, serviceMinutes: string,
                                           insertError: Option<string>)
    ensures var es := SaveEffects(Some(user), equipmentType, serviceMinutes, insertError);
      es[3] == Insert(EntriesTable, NewEntry(user, equipmentType, serviceMinutes))
      && (forall i :: 0 <= i < |es| && es[i].Insert? ==> i == 3)
      && SavingAt(es, 3, true)
  {
    var es := SaveEffects(Some(user), equipmentType, serviceMinutes, insertError);
    assert es[1] == SetSaving(true) && !es[2].SetSaving?;
  }

  /**
   * A save clears the status and turns `saving` on first, and ends with
   * `saving` off and the status set to exactly one of an error or success.
   */
  lemma {:induction false} SaveEndsSettled(user: Option<User>, equipmentType: string, serviceMinutes: string,
                                           insertError: Option<string>)
    ensures var es := SaveEffects(user, equipmentType, serviceMinutes, insertError);
      es[..2] == [SetSaveStatus(None), SetSaving(true)]
      && SavingAt(es, |es|, false)
      && exists j :: 0 <= j < |es| && es[j] == SetSaveStatus(Some(SaveResult(user, insertError)))
           && forall k :: j < k < |es| ==> !es[k].SetSaveStatus?
  {
    var es := SaveEffects(user, equipmentType, serviceMinutes, insertError);
    if user.None? {
      assert es[3] == SetSaveStatus(Some(SaveResult(user, insertError))) && es[4] == SetSaving(false);
    } else {
      assert es[4] == SetSaving(false) && es[5] == SetSaveStatus(Some(SaveResult(user, insertError)));
    }
  }

  /** The screen component's state and what it has done so far. */
  class MainScreen {
    var equipmentType: string
    var serviceMinutes: string
    var saveStatus: Option<SaveStatus>
    var saving: bool
    var effects: seq<Effect>

    /** What the change handlers maintain. */
    predicate Valid()
      reads this
    {
      FormValid(equipmentType, serviceMinutes)
    }

    constructor ()
      ensures Valid()
      ensures equipmentType == "" && serviceMinutes == "" && saveStatus == None && !saving && effects == []
    {
      equipmentType, serviceMinutes, saveStatus, saving, effects := "", "", None, false, [];
    }

    /** `serviceMinutesNum`, as derived on every render. */
    function ServiceMinutesNum(): (m: MinutesValue)
      reads this
      ensures Valid() ==> m != NotANumber
      ensures Valid() ==> (m == NoMinutes <==> serviceMinutes == "")
      ensures Valid() && serviceMinutes != "" ==> m == Whole(SignedValue(serviceMinutes))
    {
      var m := Minutes(serviceMinutes);
      if Valid() then MinutesOfAccepted(serviceMinutes); m else m
    }

    method HandleEquipmentTypeChange(value: string)
      modifies this`equipmentType
      ensures equipmentType == if AcceptsEquipmentType(value) then value else old(equipmentType)
      ensures old(Valid()) ==> Valid()
    {
      if |value| <= EquipmentTypeMaxLength {
        equipmentType := value;
      }
    }

    method HandleServiceMinutesChange(value: string)
      modifies this`serviceMinutes
      ensures serviceMinutes == if AcceptsServiceMinutes(value) then value else old(serviceMinutes)
      ensures old(Valid()) ==> Valid()
    {
      if value == "" || IsSignedInteger(value) {
        serviceMinutes := value;
      }
    }

    method HandleSignOut()
      modifies this`effects
      ensures effects == old(effects) + [SignOut, Push(LoginPath), Refresh]
    {
      effects := effects + [SignOut];
      effects := effects + [Push(LoginPath)];
      effects := effects + [Refresh];
    }

    /** `setSaveStatus`. */
    method WriteSaveStatus(status: Option<SaveStatus>)
      modifies this`saveStatus, this`effects
      ensures saveStatus == status && effects == old(effects) + [SetSaveStatus(status)]
    {
      saveStatus := status;
      effects := effects + [SetSaveStatus(status)];
    }

    /** `setSaving`. */
    method WriteSaving(b: bool)
      modifies this`saving, this`effects
      ensures saving == b && effects == old(effects) + [SetSaving(b)]
    {
      saving := b;
      effects := effects + [SetSaving(b)];
    }

    /** `handleSave`, with the backend's answers as parameters. */
    method HandleSave(user: Option<User>, insertError: Option<string>)
      modifies this`saveStatus, this`saving, this`effects
      ensures effects == old(effects) + SaveEffects(user, equipmentType, serviceMinutes, insertError)
      ensures saveStatus == Some(SaveResult(user, insertError)) && !saving
    {
      WriteSaveStatus(None);
      WriteSaving(true);
      effects := effects + [GetUser];
      if user.None? {
        WriteSaveStatus(Some(Failed(NotSignedInMessage)));
        WriteSaving(false);
        return;
      }
      var minutes := Minutes(serviceMinutes);
      var entry := EquipmentEntry(user.value.id, TrimmedOrNull(equipmentType), minutes, true);
      assert entry == NewEntry(user.value, equipmentType, serviceMinutes);
      effects := effects + [Insert(EntriesTable, entry)];
      WriteSaving(false);
      if insertError.Some? {
        WriteSaveStatus(Some(Failed(insertError.value)));
        return;
      }
      WriteSaveStatus(Some(Saved));
    }
  }
}
