/** The "Enhance with AI" dialog of the page-based front end: the itinerary text sent to
    the suggestion flow, and the dialog's state as the flow starts, ends and the dialog
    opens and closes. */
module Enhancer {
  import opened Wrappers
  import opened Strings
  import opened Trip

  /** `Day {day}: {title} - {description}`. */
  function ItineraryLine(a: Activity): string {
    "Day " + IntToString(a.day) + ": " + a.title + " - " + a.description
  }

  function Lines(itinerary: seq<Activity>): (r: seq<string>)
    ensures |r| == |itinerary| && forall i :: 0 <= i < |r| ==> r[i] == ItineraryLine(itinerary[i])
  {
    seq(|itinerary|, i requires 0 <= i < |itinerary| => ItineraryLine(itinerary[i]))
  }

  /** The itinerary as the flow receives it: one line per activity, joined by newlines. */
  function ItineraryString(itinerary: seq<Activity>): string {
    Join(Lines(itinerary), "\n")
  }

  predicate NoNewline(a: Activity) {
    '\n' !in a.title && '\n' !in a.description
  }

  lemma LineHasNoNewline(a: Activity)
    requires NoNewline(a)
    ensures '\n' !in ItineraryLine(a)
  {
    var d := IntToString(a.day);
    assert '\n' !in d by {
      var digits := NatToString(if a.day < 0 then -a.day else a.day);
      assert forall i :: 0 <= i < |digits| ==> digits[i] != '\n';
    }
  }

  /** When no title or description holds a newline, the text has exactly one line per
      activity, in itinerary order, with no trailing newline. */
  lemma {:induction false} OneLinePerActivity(itinerary: seq<Activity>)
    requires itinerary != []
    requires forall a :: a in itinerary ==> NoNewline(a)
    ensures Split(ItineraryString(itinerary), "\n") == Lines(itinerary)
    ensures |Split(ItineraryString(itinerary), "\n")| == |itinerary|
  {
    var lines := Lines(itinerary);
    forall i | 0 <= i < |lines| ensures "\n"[0] !in lines[i] {
      assert itinerary[i] in itinerary;
      LineHasNoNewline(itinerary[i]);
    }
    SplitJoin(lines, "\n");
  }

  /** The flow's answer. */
  datatype Suggestions = Suggestions(suggestions: string, reasoning: string)

  /** The input handed to the flow. */
  datatype EnhanceRequest = EnhanceRequest(itinerary: string, preferences: string)

  datatype Toast = Toast(variant: string, title: string, description: string)

  const FailureToast := Toast("destructive", "Error", "Could not generate suggestions. Please try again.")

  /** The enhance button: its caption, and whether it is disabled. */
  datatype EnhanceButton = EnhanceButton(caption: string, disabled: bool)

  /** What the open dialog shows. */
  datatype DialogView = DialogView(
    preferencesField: bool,
    preferencesDisabled: bool,
    analyzing: bool,
    results: Option<Suggestions>,
    enhance: Option<EnhanceButton>)

  /** The dialog's body for a given state: the preferences field and the enhance button
      only until suggestions arrive, the spinner while the flow runs. */
  function View(isGenerating: bool, suggestions: Option<Suggestions>): (v: DialogView)
    ensures v.preferencesField <==> suggestions.None?
    ensures v.enhance.Some? <==> suggestions.None?
    ensures v.results == suggestions
    ensures v.analyzing == isGenerating
    ensures v.enhance.Some? ==> ((v.enhance.value.disabled <==> isGenerating)
      && (v.enhance.value.caption == "Generating..." <==> isGenerating))
  {
    DialogView(suggestions.None?, isGenerating, isGenerating, suggestions,
      if suggestions.None? then Some(EnhanceButton(if isGenerating then "Generating..." else "Get Suggestions", isGenerating))
      else None)
  }

  class Dialog {
    var isOpen: bool
    var isGenerating: bool
    var preferences: string
    var suggestions: Option<Suggestions>
    /** The toasts raised, oldest first. */
    var toasts: seq<Toast>

    constructor ()
      ensures !isOpen && !isGenerating && preferences == "" && suggestions.None? && toasts == []
    {
      isOpen := false;
      isGenerating := false;
      preferences := "";
      suggestions := None;
      toasts := [];
    }

    /** The textarea's `onChange`; the field is disabled while the flow runs. */
    method EditPreferences(text: string)
      modifies this
      ensures preferences == (if old(isGenerating) then old(preferences) else text)
      ensures isOpen == old(isOpen) && isGenerating == old(isGenerating)
      ensures suggestions == old(suggestions) && toasts == old(toasts)
    {
      if !isGenerating {
        preferences := text;
      }
    }

    /** The first half of `handleEnhance`, up to the call: the spinner starts, earlier
        suggestions are cleared and the request is built. */
    method StartEnhance(trip: Trip) returns (request: EnhanceRequest)
      modifies this
      ensures isGenerating && suggestions.None?
      ensures request == EnhanceRequest(ItineraryString(trip.itinerary), preferences)
      ensures isOpen == old(isOpen) && preferences == old(preferences) && toasts == old(toasts)
    {
      isGenerating := true;
      suggestions := None;
      request := EnhanceRequest(ItineraryString(trip.itinerary), preferences);
    }

    /** The second half: the result on success, the failure toast otherwise, and the
        spinner stops on both paths. */
    method FinishEnhance(result: Option<Suggestions>)
      modifies this
      ensures !isGenerating
      ensures result.Some? ==> suggestions == result && toasts == old(toasts)
      ensures result.None? ==> suggestions == old(suggestions) && toasts == old(toasts) + [FailureToast]
      ensures isOpen == old(isOpen) && preferences == old(preferences)
    {
      if result.Some? {
        suggestions := result;
      } else {
        toasts := toasts + [FailureToast];
      }
      isGenerating := false;
    }

    /** `handleEnhance` as a whole, the flow answering `result` (None when it throws). */
    method Enhance(trip: Trip, result: Option<Suggestions>) returns (request: EnhanceRequest)
      modifies this
      ensures request == EnhanceRequest(ItineraryString(trip.itinerary), old(preferences))
      ensures !isGenerating && suggestions == result
      ensures toasts == old(toasts) + (if result.None? then [FailureToast] else [])
      ensures isOpen == old(isOpen) && preferences == old(preferences)
    {
      request := StartEnhance(trip);
      FinishEnhance(result);
    }

    /** `handleOpenChange`: closing clears the suggestions and preferences; opening only
        opens. */
    method OpenChange(open: bool)
      modifies this
      ensures isOpen == open
      ensures !open ==> suggestions.None? && preferences == ""
      ensures open ==> suggestions == old(suggestions) && preferences == old(preferences)
      ensures isGenerating == old(isGenerating) && toasts == old(toasts)
    {
      if !open {
        suggestions := None;
        preferences := "";
      }
      isOpen := open;
    }
  }

  /** Closing and reopening after suggestions arrived shows an empty preferences field and
      the enhance button again. */
  method CloseAndReopen(d: Dialog)
    modifies d
    ensures d.isOpen && d.preferences == ""
    ensures d.isGenerating == old(d.isGenerating)
    ensures View(d.isGenerating, d.suggestions).preferencesField
    ensures View(d.isGenerating, d.suggestions).enhance.Some?
  {
    d.OpenChange(false);
    d.OpenChange(true);
  }
}
