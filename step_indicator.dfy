/**
 * The status derivation of the step indicator (components/StepIndicator.tsx): for
 * the current step, which of the four markers is completed, which is highlighted
 * and what each marker shows.
 */
module StepIndicator {
  import opened Types

  /** One entry of the indicator's table: the step it stands for and its caption. */
  datatype Marker = Marker(id: AppStep, caption: string)

  /** The table of markers. `Generating` has no marker of its own. */
  const Steps: seq<Marker> := [
    Marker(AppStep.UploadBase, "Ambiente"),
    Marker(AppStep.UploadLogo, "Logotipo"),
    Marker(AppStep.Describe, "Instruções"),
    Marker(AppStep.Result, "Resultado")]

  predicate IsActive(currentStep: AppStep, marker: Marker)
  {
    currentStep == marker.id
  }

  predicate IsCompleted(currentStep: AppStep, marker: Marker)
  {
    currentStep > marker.id
  }

  /** While generating, the result marker stands in for the missing `Generating` marker. */
  predicate IsGenerating(currentStep: AppStep, marker: Marker)
  {
    currentStep == AppStep.Generating && marker.id == AppStep.Result
  }

  /** The three circle styles: idle (slate), highlighted (orange) and completed (green). */
  datatype Circle = Idle | Highlighted | Completed

  /** `circleClass`: idle by default, highlighted when active or generating, completed last so it wins. */
  function CircleClass(currentStep: AppStep, marker: Marker): (r: Circle)
    ensures r == Completed <==> marker.id < currentStep
    ensures r == Highlighted <==>
      marker.id == currentStep || (currentStep == AppStep.Generating && marker.id == AppStep.Result)
  {
    if IsCompleted(currentStep, marker) then Completed
    else if IsActive(currentStep, marker) || IsGenerating(currentStep, marker) then Highlighted
    else Idle
  }

  /** What the circle shows: a check mark, or the marker's 1-based position. */
  datatype Badge = Check | Number(n: nat)

  /** What one marker looks like: its circle, its badge, whether its caption is bright, and the caption. */
  datatype MarkerView = MarkerView(circle: Circle, badge: Badge, brightCaption: bool, caption: string)

  /** One marker of the row, as the `map` callback renders it for position `index`. */
  function View(currentStep: AppStep, index: nat): (v: MarkerView)
    requires index < |Steps|
    ensures v.circle == CircleClass(currentStep, Steps[index])
    ensures v.badge == Check <==> Steps[index].id < currentStep
    ensures v.badge != Check ==> v.badge == Number(index + 1)
    ensures v.brightCaption <==> Steps[index].id <= currentStep
    ensures v.caption == Steps[index].caption
  {
    var marker := Steps[index];
    MarkerView(
      CircleClass(currentStep, marker),
      if IsCompleted(currentStep, marker) then Check else Number(index + 1),
      IsActive(currentStep, marker) || IsCompleted(currentStep, marker),
      marker.caption)
  }

  /** The `map` over the table. */
  function Render(currentStep: AppStep): (r: seq<MarkerView>)
    ensures |r| == |Steps|
    ensures forall i :: 0 <= i < |r| ==> r[i] == View(currentStep, i)
  {
    seq(|Steps|, i requires 0 <= i < |Steps| => View(currentStep, i))
  }

  /** Four markers, in step order, none of them for `Generating`. */
  lemma StepsTable()
    ensures |Steps| == 4
    ensures forall i, j :: 0 <= i < j < |Steps| ==> Steps[i].id < Steps[j].id
    ensures forall i :: 0 <= i < |Steps| ==> Steps[i].id != AppStep.Generating
    ensures forall currentStep :: |Render(currentStep)| == 4
  {
  }

  /** Completed and active never hold together. */
  lemma CompletedAndActiveExclusive(currentStep: AppStep, marker: Marker)
    ensures !(IsCompleted(currentStep, marker) && IsActive(currentStep, marker))
  {
  }

  /** Completed styling overrides active and generating styling. */
  lemma CompletedOverrides(currentStep: AppStep, marker: Marker)
    requires IsCompleted(currentStep, marker)
    ensures CircleClass(currentStep, marker) == Completed
  {
  }

  /** While generating, the three first markers are completed and the result marker is highlighted. */
  lemma GeneratingView()
    ensures forall i :: 0 <= i < 3 ==> Render(AppStep.Generating)[i].circle == Completed
    ensures Render(AppStep.Generating)[3].circle == Highlighted
    ensures Render(AppStep.Generating)[3].badge == Number(4)
  {
  }

  /** The position of the one highlighted marker for each step. */
  function HighlightedIndex(currentStep: AppStep): (k: nat)
    ensures k < |Steps| && CircleClass(currentStep, Steps[k]) == Highlighted
    ensures forall j :: 0 <= j < |Steps| && j != k ==> CircleClass(currentStep, Steps[j]) != Highlighted
  {
    if currentStep >= AppStep.Generating then 3 else currentStep as nat
  }

  /** For every step exactly one marker of the rendered indicator is highlighted. */
  lemma ExactlyOneHighlighted(currentStep: AppStep)
    ensures var views := Render(currentStep);
      |set i | 0 <= i < |views| && views[i].circle == Highlighted| == 1
  {
    var views := Render(currentStep);
    var k := HighlightedIndex(currentStep);
    assert (set i | 0 <= i < |views| && views[i].circle == Highlighted) == {k};
  }

  /** A marker shows a check exactly when it is completed, and otherwise its position plus one. */
  lemma BadgeShowsProgress(currentStep: AppStep, index: nat)
    requires index < |Steps|
    ensures Render(currentStep)[index].badge == Check <==> Steps[index].id < currentStep
    ensures Steps[index].id >= currentStep ==> Render(currentStep)[index].badge == Number(index + 1)
  {
  }
}
