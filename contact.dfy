/** The ticket form of src/FooterButton/Components/Support/ContactComponent.tsx. */
module Contact {
  import opened Wrappers

  datatype TicketForm = TicketForm(subject: string, category: string, priority: string, message: string)

  /** The form `useState` starts with. */
  const InitialForm := TicketForm("", "", "medium", "")

  /** The guard of `handleSubmitTicket`; the priority plays no part in it. */
  predicate CanSubmit(f: TicketForm) {
    f.subject != "" && f.category != "" && f.message != ""
  }

  /** `handleSubmitTicket`: the ticket handed to `onSubmitTicket`, if any, and
      the form afterwards. */
  function SubmitTicket(f: TicketForm): (r: (Option<TicketForm>, TicketForm))
    ensures r.0.Some? <==> CanSubmit(f)
    ensures r.0.Some? ==> r.0.value == f && r.1 == TicketForm("", "", "medium", "")
    ensures r.0.None? ==> r.1 == f
  {
    if CanSubmit(f) then (Some(f), TicketForm("", "", "medium", "")) else (None, f)
  }

  /** A submission leaves the form as it was first shown, so a second press
      submits nothing. */
  lemma ResetIsInitial(f: TicketForm)
    requires CanSubmit(f)
    ensures SubmitTicket(f).1 == InitialForm
    ensures SubmitTicket(SubmitTicket(f).1).0 == None
  {
  }

  /** Changing only the priority never changes whether a ticket is sent. */
  lemma PriorityIrrelevant(f: TicketForm, priority: string)
    ensures SubmitTicket(f.(priority := priority)).0.Some? == SubmitTicket(f).0.Some?
  {
  }
}
