/** The team picker: the options it offers for a list of teams and the team
    ids it reports for a selection. */
module TeamsSelectable {

  datatype Team = Team(id: string, name: string, displayName: string, isJoinable: bool)

  /** A select option: its label (`labelText`, since `label` is a keyword
      here) and the team id as its value. */
  datatype SelectableOption = SelectableOption(labelText: string, value: string)

  /** The joinable teams, in order. */
  function Joinable(teams: seq<Team>): (r: seq<Team>)
    ensures |r| <= |teams|
    ensures forall t :: t in r <==> t in teams && t.isJoinable
  {
    if teams == [] then []
    else (if teams[0].isJoinable then [teams[0]] else []) + Joinable(teams[1..])
  }

  /** The filter keeps order and multiplicity: it maps a concatenation to
      the concatenation of its parts, and keeps one team exactly when it is
      joinable. */
  lemma {:induction false} JoinableAppend(a: seq<Team>, b: seq<Team>, t: Team)
    ensures Joinable(a + b) == Joinable(a) + Joinable(b)
    ensures Joinable([t]) == if t.isJoinable then [t] else []
  {
    assert [t][1..] == [];
    if a == [] {
      assert a + b == b;
    } else {
      assert (a + b)[0] == a[0];
      assert (a + b)[1..] == a[1..] + b;
      JoinableAppend(a[1..], b, t);
    }
  }

  /** `getOptions`: one option per joinable team, in order, labelled by
      `getEntityName`. */
  function GetOptions(teams: seq<Team>, getEntityName: Team -> string): (r: seq<SelectableOption>)
    ensures |r| == |Joinable(teams)|
    ensures forall i :: 0 <= i < |r| ==>
      r[i] == SelectableOption(getEntityName(Joinable(teams)[i]), Joinable(teams)[i].id)
  {
    var joinable := Joinable(teams);
    seq(|joinable|, i requires 0 <= i < |joinable| => SelectableOption(getEntityName(joinable[i]), joinable[i].id))
  }

  /** `handleSelectionChange`: the values of the selected options, in order. */
  function HandleSelectionChange(selectedOptions: seq<SelectableOption>): (r: seq<string>)
    ensures |r| == |selectedOptions| && forall i :: 0 <= i < |r| ==> r[i] == selectedOptions[i].value
  {
    seq(|selectedOptions|, i requires 0 <= i < |selectedOptions| => selectedOptions[i].value)
  }

  /** Selecting every option reports the ids of the joinable teams and of no
      other team. */
  lemma SelectingAllReportsJoinableIds(teams: seq<Team>, getEntityName: Team -> string)
    ensures var ids := HandleSelectionChange(GetOptions(teams, getEntityName));
      (forall t :: t in teams && t.isJoinable ==> t.id in ids) &&
      (forall id :: id in ids ==> exists t :: t in teams && t.isJoinable && t.id == id)
  {
    var joinable := Joinable(teams);
    var ids := HandleSelectionChange(GetOptions(teams, getEntityName));
    forall t | t in teams && t.isJoinable ensures t.id in ids {
      var i :| 0 <= i < |joinable| && joinable[i] == t;
      assert ids[i] == t.id;
    }
    forall id | id in ids ensures exists t :: t in teams && t.isJoinable && t.id == id {
      var i :| 0 <= i < |ids| && ids[i] == id;
      assert joinable[i] in joinable;
    }
  }
}
