/**
 * The login form (components/LoginView.tsx): three fields, the submit guard,
 * the disabled state of the submit button, and the group-icon lookup.
 */
module LoginView {
  import opened Types
  import opened Wrappers
  import Seqs

  /** A team the student can join: its id, display name and icon. */
  datatype Group = Group(id: string, name: string, icon: string)

  /** The icon shown for an unknown group, U+1F465 (busts in silhouette). */
  const DefaultGroupIcon: string := "\U{1F465}"

  /**
   * The icon of the first group with the given id, or the default icon when no
   * group has it or that group's icon is empty (`?.icon || default`).
   */
  function GroupIcon(groups: seq<Group>, groupId: string): (icon: string)
    ensures icon != []
    ensures forall i ::
      (0 <= i < |groups| && groups[i].id == groupId && (forall j :: 0 <= j < i ==> groups[j].id != groupId))
      ==> icon == (if groups[i].icon != [] then groups[i].icon else DefaultGroupIcon)
    ensures (forall i :: 0 <= i < |groups| ==> groups[i].id != groupId) ==> icon == DefaultGroupIcon
    ensures || icon == DefaultGroupIcon
            || exists i :: && 0 <= i < |groups| && groups[i].id == groupId && icon == groups[i].icon
                           && (forall j :: 0 <= j < i ==> groups[j].id != groupId)
  {
    match Seqs.FindFirst(groups, (g: Group) => g.id == groupId)
    case Some(i) => if groups[i].icon != [] then groups[i].icon else DefaultGroupIcon
    case None => DefaultGroupIcon
  }

  /** The form's state: what has been typed and which group is selected ("" for none). */
  class LoginForm {
    var studentId: string
    var studentName: string
    var selectedGroup: string

    constructor ()
      ensures studentId == [] && studentName == [] && selectedGroup == []
    {
      studentId, studentName, selectedGroup := [], [], [];
    }

    /** The guard of `handleSubmit`: every field holds a non-empty string. */
    predicate CanSubmit()
      reads this
    {
      studentId != [] && studentName != [] && selectedGroup != []
    }

    /** The submit button's `disabled` expression; it is disabled exactly when the guard would reject. */
    function SubmitDisabled(): (disabled: bool)
      reads this
      ensures disabled <==> !CanSubmit()
    {
      studentId == [] || studentName == [] || selectedGroup == []
    }

    method SetStudentId(value: string)
      modifies this
      ensures studentId == value && studentName == old(studentName) && selectedGroup == old(selectedGroup)
    {
      studentId := value;
    }

    method SetStudentName(value: string)
      modifies this
      ensures studentName == value && studentId == old(studentId) && selectedGroup == old(selectedGroup)
    {
      studentName := value;
    }

    /** Clicking a group replaces any earlier choice: one group is selected at a time. */
    method SelectGroup(groupId: string)
      modifies this
      ensures selectedGroup == groupId && studentId == old(studentId) && studentName == old(studentName)
    {
      selectedGroup := groupId;
    }

    /**
     * Submitting hands the entered values on to the app when all three are
     * filled in, and hands on nothing otherwise.
     */
    method Submit() returns (login: Option<StudentInfo>)
      ensures login.Some? <==> studentId != [] && studentName != [] && selectedGroup != []
      ensures login.Some? ==>
        login.value.studentId == studentId && login.value.studentName == studentName && login.value.group == selectedGroup
    {
      if CanSubmit() {
        login := Some(StudentInfo(studentId, studentName, selectedGroup));
      } else {
        login := None;
      }
    }
  }
}
