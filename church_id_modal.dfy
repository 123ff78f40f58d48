/** The church-id dialog (src/components/modals/ChurchIdModal.tsx): it
    validates the typed id, writes it on the signed-in user's profile and
    reports back. The submit handler waits for the update; the model splits
    it at that point into `Begin` and `Finish`. */
module ChurchIdModal {
  import opened Wrappers
  import opened Text

  /** `update({ church_id }).eq('id', userId)`; the id is `undefined` when the
      auth service has no user. */
  datatype ProfileUpdate = ProfileUpdate(churchId: string, userId: Option<string>)

  /** The id to write: the trimmed input, when it is not blank. */
  function Accepted(input: string): (r: Option<string>)
    ensures r.Some? ==> r.value == Trim(input) && r.value != ""
  {
    var t := Trim(input);
    if Truthy(t) then Some(t) else None
  }

  /** The input is refused exactly when it is blank; an accepted id is
      already trimmed. */
  lemma AcceptedIffNotBlank(input: string)
    ensures Accepted(input).None? <==> forall k :: 0 <= k < |input| ==> IsSpace(input[k])
    ensures Accepted(input).Some? ==> Trim(Accepted(input).value) == Accepted(input).value
  {
    TrimEmptyIff(input);
    TrimIdempotent(input);
  }

  class Dialog {
    var input: string
    var loading: bool
    /** The last error toast, if any. */
    var toast: Option<string>

    constructor ()
      ensures input == "" && !loading && toast == None
    {
      input, loading, toast := "", false, None;
    }

    /** Typing in the field replaces the input and nothing else. */
    method SetInput(value: string)
      modifies this
      ensures input == value && loading == old(loading) && toast == old(toast)
    {
      input := value;
    }

    /** Up to the update: a blank input is refused without an update;
        otherwise `loading` rises and the update is sent. */
    method Begin(authUserId: Option<string>) returns (update: Option<ProfileUpdate>)
      modifies this
      ensures input == old(input)
      ensures update == if Accepted(input).Some? then Some(ProfileUpdate(Accepted(input).value, authUserId)) else None
      ensures loading == (update.Some? || old(loading))
      ensures toast == if update.None? then Some("Please enter a church ID") else old(toast)
    {
      var id := Accepted(input);
      if id.None? {
        toast := Some("Please enter a church ID");
        update := None;
      } else {
        loading := true;
        update := Some(ProfileUpdate(id.value, authUserId));
      }
    }

    /** After the update: `onSuccess` only when it reported no error;
        `loading` falls either way. */
    method Finish(error: Option<string>) returns (callSuccess: bool)
      requires loading
      modifies this
      ensures !loading && input == old(input)
      ensures callSuccess <==> error.None?
      ensures error.None? ==> toast == old(toast)
      ensures error.Some? ==> toast == Some(OrElse(error, "Failed to update church ID"))
    {
      callSuccess := error.None?;
      if error.Some? {
        toast := Some(OrElse(error, "Failed to update church ID"));
      }
      loading := false;
    }
  }
}
