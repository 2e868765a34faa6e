/** The exercise records as the server sends them, and the display labels the
    exercise cards show for a body part, a target muscle and a piece of equipment. */
module Exercises {

  datatype Pagination = Pagination(total: int, page: string, limit: int, totalPages: int)

  /** One exercise; `mongoId` is the wire field `_id`. */
  datatype Exercise = Exercise(
    id: int,
    mongoId: string,
    name: string,
    bodyPart: string,
    equipment: string,
    gifUrl: string,
    target: string,
    secondaryMuscles: seq<string>,
    instructions: seq<string>)

  /** One page envelope: application code, message, the page's exercises, paging data. */
  datatype ExerciseResponse = ExerciseResponse(code: int, message: string, data: seq<Exercise>, pagination: Pagination)

  /** The body parts that have a label, and their labels. */
  const BodyPartLabels: map<string, string> := map[
    "waist" := "腰部", "upper legs" := "大腿", "back" := "背部", "lower legs" := "小腿", "chest" := "胸部"]

  const TargetLabels: map<string, string> := map[
    "abs" := "腹肌", "quads" := "股四头肌", "lats" := "背阔肌", "calves" := "小腿肌", "pectorals" := "胸大肌"]

  const EquipmentLabels: map<string, string> := map[
    "body weight" := "徒手", "cable" := "缆绳", "leverage machine" := "器械", "assisted" := "辅助"]

  /** Looking a value up in a label table: its label when it has one, itself otherwise. */
  function Relabel(labels: map<string, string>, s: string): string {
    if s in labels then labels[s] else s
  }

  /** `formattedBodyPart`. */
  function FormattedBodyPart(e: Exercise): (shown: string)
    ensures shown == Relabel(BodyPartLabels, e.bodyPart)
  {
    match e.bodyPart
    case "waist" => "腰部"
    case "upper legs" => "大腿"
    case "back" => "背部"
    case "lower legs" => "小腿"
    case "chest" => "胸部"
    case _ => e.bodyPart
  }

  /** `formattedTarget`. */
  function FormattedTarget(e: Exercise): (shown: string)
    ensures shown == Relabel(TargetLabels, e.target)
  {
    match e.target
    case "abs" => "腹肌"
    case "quads" => "股四头肌"
    case "lats" => "背阔肌"
    case "calves" => "小腿肌"
    case "pectorals" => "胸大肌"
    case _ => e.target
  }

  /** `formattedEquipment`. */
  function FormattedEquipment(e: Exercise): (shown: string)
    ensures shown == Relabel(EquipmentLabels, e.equipment)
  {
    match e.equipment
    case "body weight" => "徒手"
    case "cable" => "缆绳"
    case "leverage machine" => "器械"
    case "assisted" => "辅助"
    case _ => e.equipment
  }

  /** A label table is well formed when no two keys share a label and no label is
      itself a key. */
  predicate WellFormedLabels(labels: map<string, string>) {
    && (forall k1, k2 :: k1 in labels && k2 in labels && k1 != k2 ==> labels[k1] != labels[k2])
    && (forall k :: k in labels ==> labels[k] !in labels)
  }

  lemma BodyPartLabelsWellFormed()
    ensures WellFormedLabels(BodyPartLabels)
  {
    assert "upper legs"[0] != "lower legs"[0] && "大腿"[0] != "小腿"[0];
  }

  lemma TargetLabelsWellFormed()
    ensures WellFormedLabels(TargetLabels)
  {
  }

  lemma EquipmentLabelsWellFormed()
    ensures WellFormedLabels(EquipmentLabels)
  {
  }

  /** Under a well-formed table a value is changed exactly when it is a key, the labels
      of two distinct keys differ, and relabelling a label leaves it alone. */
  lemma RelabelProperties(labels: map<string, string>, s: string, t: string)
    requires WellFormedLabels(labels)
    ensures Relabel(labels, s) != s <==> s in labels
    ensures s in labels && t in labels && s != t ==> Relabel(labels, s) != Relabel(labels, t)
    ensures Relabel(labels, Relabel(labels, s)) == Relabel(labels, s)
  {
  }

  /** The body-part labels: each of the five keys gets its own label, any other
      body part is shown unchanged, and formatting a label again changes nothing. */
  lemma BodyPartLabelling(e: Exercise, f: Exercise)
    ensures FormattedBodyPart(e) != e.bodyPart <==> e.bodyPart in BodyPartLabels
    ensures e.bodyPart in BodyPartLabels && f.bodyPart in BodyPartLabels && e.bodyPart != f.bodyPart
      ==> FormattedBodyPart(e) != FormattedBodyPart(f)
    ensures FormattedBodyPart(e.(bodyPart := FormattedBodyPart(e))) == FormattedBodyPart(e)
  {
    BodyPartLabelsWellFormed();
    RelabelProperties(BodyPartLabels, e.bodyPart, f.bodyPart);
  }

  lemma TargetLabelling(e: Exercise, f: Exercise)
    ensures FormattedTarget(e) != e.target <==> e.target in TargetLabels
    ensures e.target in TargetLabels && f.target in TargetLabels && e.target != f.target
      ==> FormattedTarget(e) != FormattedTarget(f)
    ensures FormattedTarget(e.(target := FormattedTarget(e))) == FormattedTarget(e)
  {
    TargetLabelsWellFormed();
    RelabelProperties(TargetLabels, e.target, f.target);
  }

  lemma EquipmentLabelling(e: Exercise, f: Exercise)
    ensures FormattedEquipment(e) != e.equipment <==> e.equipment in EquipmentLabels
    ensures e.equipment in EquipmentLabels && f.equipment in EquipmentLabels && e.equipment != f.equipment
      ==> FormattedEquipment(e) != FormattedEquipment(f)
    ensures FormattedEquipment(e.(equipment := FormattedEquipment(e))) == FormattedEquipment(e)
  {
    EquipmentLabelsWellFormed();
    RelabelProperties(EquipmentLabels, e.equipment, f.equipment);
  }
}
