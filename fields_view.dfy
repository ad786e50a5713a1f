/** The field list: every key is shown, a value only once its key has been found. */
module FieldsView {
  import opened Wrappers
  import opened GameTypes

  /** What a hidden value is replaced with. */
  const Mask := "????"

  /** One rendered field: its key, the text in its value slot, and whether it is styled as revealed. */
  datatype FieldRow = FieldRow(key: string, text: string, revealed: bool)

  predicate Found(found: Option<seq<string>>, key: string)
  {
    found.Some? && key in found.value
  }

  function Row(f: Field, shown: bool): FieldRow
  {
    FieldRow(f.key, if shown then f.value else Mask, shown)
  }

  /** The point fields, then the bonus fields; `revealAll` applies to point fields only. */
  function RenderFields(pointFields: seq<Field>, bonusFields: seq<Field>,
                        pointFieldsFound: Option<seq<string>>, bonusFieldsFound: Option<seq<string>>,
                        revealAll: Option<bool>): (rows: seq<FieldRow>)
    ensures |rows| == |pointFields| + |bonusFields|
    ensures forall i :: 0 <= i < |pointFields| ==>
      && rows[i].key == pointFields[i].key
      && (rows[i].revealed <==> revealAll == Some(true) || Found(pointFieldsFound, pointFields[i].key))
      && rows[i].text == if rows[i].revealed then pointFields[i].value else Mask
    ensures forall j :: 0 <= j < |bonusFields| ==>
      && rows[|pointFields| + j].key == bonusFields[j].key
      && (rows[|pointFields| + j].revealed <==> Found(bonusFieldsFound, bonusFields[j].key))
      && rows[|pointFields| + j].text == if rows[|pointFields| + j].revealed then bonusFields[j].value else Mask
  {
    var points := seq(|pointFields|, i requires 0 <= i < |pointFields| =>
      Row(pointFields[i], revealAll == Some(true) || Found(pointFieldsFound, pointFields[i].key)));
    var bonuses := seq(|bonusFields|, j requires 0 <= j < |bonusFields| =>
      Row(bonusFields[j], Found(bonusFieldsFound, bonusFields[j].key)));
    points + bonuses
  }

  /** Without `revealAll`, no row shows a value (other than the mask itself) whose key is not in its found list; an absent list reveals nothing. */
  lemma SecretsStayHidden(pointFields: seq<Field>, bonusFields: seq<Field>,
                          pointFieldsFound: Option<seq<string>>, bonusFieldsFound: Option<seq<string>>,
                          revealAll: Option<bool>, k: nat)
    requires revealAll != Some(true)
    requires k < |pointFields| + |bonusFields|
    ensures var rows := RenderFields(pointFields, bonusFields, pointFieldsFound, bonusFieldsFound, revealAll);
      var f := if k < |pointFields| then pointFields[k] else bonusFields[k - |pointFields|];
      var found := if k < |pointFields| then pointFieldsFound else bonusFieldsFound;
      rows[k].text != Mask ==> found.Some? && f.key in found.value && rows[k].text == f.value
  {
    if k >= |pointFields| {
      var j := k - |pointFields|;
      assert k == |pointFields| + j;
    }
  }

  /** `revealAll` shows every point field and leaves the bonus fields to their found list. */
  lemma RevealAllOnlyPointFields(pointFields: seq<Field>, bonusFields: seq<Field>,
                                 pointFieldsFound: Option<seq<string>>, bonusFieldsFound: Option<seq<string>>)
    ensures var all := RenderFields(pointFields, bonusFields, pointFieldsFound, bonusFieldsFound, Some(true));
      var none := RenderFields(pointFields, bonusFields, pointFieldsFound, bonusFieldsFound, None);
      && (forall i :: 0 <= i < |pointFields| ==> all[i].text == pointFields[i].value)
      && all[|pointFields|..] == none[|pointFields|..]
  {
    var all := RenderFields(pointFields, bonusFields, pointFieldsFound, bonusFieldsFound, Some(true));
    var none := RenderFields(pointFields, bonusFields, pointFieldsFound, bonusFieldsFound, None);
    forall j | 0 <= j < |bonusFields|
      ensures all[|pointFields|..][j] == none[|pointFields|..][j]
    {
      assert all[|pointFields|..][j] == all[|pointFields| + j];
      assert none[|pointFields|..][j] == none[|pointFields| + j];
    }
  }
}
