/** compensatePublishedActivation: what is requested when an activation was published but not committed. */
module PublicationRequests {
  import opened Domain
  import L = IntentLifecycle
  import P = PublicationProtocol

  /** `published` is the version the publication names, read after it; None stands for a version that is not read. */
  function Compensation(current: Intent, publication: Publication, published: Option<Intent>,
                        now: int): Option<Publication> {
    if current.status.Active? || !publication.desiredState.ActivatedState? then None
    else if current.status.Accepted? then Some(P.PublicationRequest(current.id, current.version, AcceptedState, now))
    else if L.Editable(current.status) then
      if published.None? then None
      else if published.value.status.Accepted?
        then Some(P.PublicationRequest(current.id, published.value.version, AcceptedState, now))
      else Some(P.PublicationRequest(current.id, current.version, WithdrawnState, now))
    else Some(P.PublicationRequest(current.id, current.version, WithdrawnState, now))
  }
}
