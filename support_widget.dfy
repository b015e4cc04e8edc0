/**
 * The floating help widget: a pill that opens a popover with three FAQ
 * entries and a contact form. The timer a submission schedules is counted
 * in `pendingTimers` and fires through `TimerFires`.
 */
module SupportWidget {
  import opened Wrappers
  import opened Text

  datatype View = Faq | Contact

  const FaqCount := 3

  /** The send button is disabled, and a submit ignored, for a blank message. */
  predicate IsBlank(message: string) { Trim(message) == "" }

  /** Clicking FAQ entry `i` collapses it when it is the expanded one and expands it otherwise. */
  function ExpandedAfterClick(expanded: Option<nat>, i: nat): (r: Option<nat>)
    ensures r == Some(i) <==> expanded != Some(i)
    ensures r.None? <==> expanded == Some(i)
  {
    if expanded == Some(i) then None else Some(i)
  }

  /** A second click on the same entry collapses it whatever was open before. */
  lemma SecondClickCollapses(expanded: Option<nat>, i: nat)
    requires expanded != Some(i)
    ensures ExpandedAfterClick(ExpandedAfterClick(expanded, i), i) == None
  {
  }

  class SupportWidget {
    var isOpen: bool
    var view: View
    var message: string
    var submitted: bool
    var expandedFaq: Option<nat>
    /** Timers scheduled by submissions that have not fired yet. */
    var pendingTimers: nat

    /**
     * Only one of the three entries can be expanded, and a shown
     * confirmation always has a timer that will clear it.
     */
    predicate Valid()
      reads this
    {
      (expandedFaq.Some? ==> expandedFaq.value < FaqCount) && (submitted ==> pendingTimers > 0)
    }

    constructor ()
      ensures !isOpen && view == Faq && message == "" && !submitted && expandedFaq == None
      ensures pendingTimers == 0 && Valid()
    {
      isOpen, view, message, submitted, expandedFaq := false, Faq, "", false, None;
      pendingTimers := 0;
    }

    /** The pill button toggles the popover and touches nothing else. */
    method TogglePill()
      modifies this
      ensures isOpen == !old(isOpen)
      ensures view == old(view) && message == old(message) && submitted == old(submitted)
      ensures expandedFaq == old(expandedFaq) && pendingTimers == old(pendingTimers)
      ensures old(Valid()) ==> Valid()
    {
      isOpen := !isOpen;
    }

    /** `resetWidget`: the FAQ view, no message, no confirmation, nothing expanded. */
    method ResetWidget()
      modifies this
      ensures view == Faq && message == "" && !submitted && expandedFaq == None
      ensures isOpen == old(isOpen) && pendingTimers == old(pendingTimers)
      ensures Valid()
    {
      view, message, submitted, expandedFaq := Faq, "", false, None;
    }

    /** The close button: closed and reset. */
    method Close()
      modifies this
      ensures !isOpen && view == Faq && message == "" && !submitted && expandedFaq == None
      ensures pendingTimers == old(pendingTimers)
      ensures Valid()
    {
      isOpen := false;
      ResetWidget();
    }

    /** A click on FAQ entry `i` of the FAQ view. */
    method ClickFaq(i: nat)
      requires view == Faq && i < FaqCount
      modifies this
      ensures expandedFaq == ExpandedAfterClick(old(expandedFaq), i)
      ensures isOpen == old(isOpen) && view == old(view) && message == old(message)
      ensures submitted == old(submitted) && pendingTimers == old(pendingTimers)
      ensures old(Valid()) ==> Valid()
    {
      expandedFaq := ExpandedAfterClick(expandedFaq, i);
    }

    /** "Contact Us" in the FAQ view. */
    method ContactUs()
      requires view == Faq
      modifies this
      ensures view == Contact
      ensures isOpen == old(isOpen) && message == old(message) && submitted == old(submitted)
      ensures expandedFaq == old(expandedFaq) && pendingTimers == old(pendingTimers)
      ensures old(Valid()) ==> Valid()
    {
      view := Contact;
    }

    /** The back arrow, shown only in the contact view. */
    method Back()
      requires view == Contact
      modifies this
      ensures view == Faq
      ensures isOpen == old(isOpen) && message == old(message) && submitted == old(submitted)
      ensures expandedFaq == old(expandedFaq) && pendingTimers == old(pendingTimers)
      ensures old(Valid()) ==> Valid()
    {
      view := Faq;
    }

    method EditMessage(m: string)
      modifies this
      ensures message == m
      ensures isOpen == old(isOpen) && view == old(view) && submitted == old(submitted)
      ensures expandedFaq == old(expandedFaq) && pendingTimers == old(pendingTimers)
      ensures old(Valid()) ==> Valid()
    {
      message := m;
    }

    /** `handleSubmit`: a blank message changes nothing; otherwise the confirmation shows and a timer starts. */
    method Submit()
      requires view == Contact
      modifies this
      ensures IsBlank(old(message)) ==>
                submitted == old(submitted) && pendingTimers == old(pendingTimers)
      ensures !IsBlank(old(message)) ==> submitted && pendingTimers == old(pendingTimers) + 1
      ensures isOpen == old(isOpen) && view == old(view) && message == old(message)
      ensures expandedFaq == old(expandedFaq)
      ensures old(Valid()) ==> Valid()
    {
      if Trim(message) == "" {
        return;
      }
      submitted := true;
      pendingTimers := pendingTimers + 1;
    }

    /** A submission's timer fires: confirmation gone, message cleared, back to the FAQ view. */
    method TimerFires()
      requires pendingTimers > 0
      modifies this
      ensures !submitted && message == "" && view == Faq
      ensures pendingTimers == old(pendingTimers) - 1
      ensures isOpen == old(isOpen) && expandedFaq == old(expandedFaq)
      ensures old(Valid()) ==> Valid()
    {
      submitted, message, view := false, "", Faq;
      pendingTimers := pendingTimers - 1;
    }
  }
}
