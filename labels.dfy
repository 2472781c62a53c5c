/** The id-to-label map built from a field's `options` list. */
module Labels {
  import opened Records

  /** The ids that occur in an options list. */
  function Ids(options: seq<FieldOption>): set<string>
  {
    set o | o in options :: o.id
  }

  /** The map obtained by writing `labels[o.id] := o.text` for each option in
      order, so that a later option overwrites an earlier one with the same id. */
  function LabelMap(options: seq<FieldOption>): (labels: map<string, string>)
    ensures labels.Keys == Ids(options)
  {
    if options == [] then map[]
    else
      var n := |options| - 1;
      assert Ids(options) == Ids(options[..n]) + {options[n].id} by {
        assert options == options[..n] + [options[n]];
      }
      LabelMap(options[..n])[options[n].id := options[n].text]
  }

  /** An id maps to the label of the last option bearing it. */
  lemma {:induction false} LabelMapLastWins(options: seq<FieldOption>, i: int)
    requires 0 <= i < |options|
    requires forall j :: i < j < |options| ==> options[j].id != options[i].id
    ensures options[i].id in LabelMap(options)
    ensures LabelMap(options)[options[i].id] == options[i].text
  {
    var n := |options| - 1;
    if i < n {
      LabelMapLastWins(options[..n], i);
    }
  }

  /** Every label in the map comes from an option with that id. */
  lemma {:induction false} LabelMapFromOptions(options: seq<FieldOption>, id: string)
    requires id in LabelMap(options)
    ensures exists i :: 0 <= i < |options| && options[i] == FieldOption(id, LabelMap(options)[id])
  {
    var n := |options| - 1;
    if options[n].id != id {
      LabelMapFromOptions(options[..n], id);
      var i :| 0 <= i < n && options[..n][i] == FieldOption(id, LabelMap(options[..n])[id]);
      assert options[i] == options[..n][i];
    } else {
      assert options[n] == FieldOption(id, LabelMap(options)[id]);
    }
  }
}
