/**
 * Two tabs of the lead page, src/components/leads/lead-detail.tsx.
 *
 * The photo tab: its counts, the approve and reject actions and what a
 * successful action resets. The notes tab: who may write notes, when a
 * note is sent, and whose notes can be pinned or deleted.
 *
 * A request a handler starts is returned as what it sends; the outcome of
 * a request is a separate method, called when it succeeds.
 */
module LeadDetail {
  import opened Common
  import opened Text
  import opened Photos

  // ---------------------------------------------------------------------------
  // PhotosTab

  /** The photo tab's `stats`: the gallery's split over the lead's own photos. */
  function PhotosTabStats(photos: seq<Photo>): (r: Stats)
    ensures r.total == |photos| && r.pending + r.verified == r.total
  {
    StatsOf(photos)
  }

  /** The state of the photo tab: the open photo, the reject dialog, and whether each request is in flight. */
  class PhotosTab {
    var selected: Option<Photo>
    var showRejectModal: bool
    var rejectReason: string
    var verifyPending: bool
    var rejectPending: bool

    constructor()
      ensures selected == None && !showRejectModal && rejectReason == ""
      ensures !verifyPending && !rejectPending
    {
      selected := None;
      showRejectModal := false;
      rejectReason := "";
      verifyPending := false;
      rejectPending := false;
    }

    /** The approve button is disabled while approving or when the open photo is already verified. */
    predicate ApproveDisabled()
      reads this
      requires selected.Some?
    {
      verifyPending || selected.value.isVerified == Some(true)
    }

    /** The dialog's confirm button is disabled for a blank reason or while rejecting. */
    predicate ConfirmRejectDisabled()
      reads this
    {
      Trim(rejectReason) == "" || rejectPending
    }

    /** `handleVerify`: asks to verify the open photo, if there is one. */
    method HandleVerify() returns (sent: Option<string>)
      modifies this`verifyPending
      ensures sent == (if old(selected).Some? then Some(old(selected).value.id) else None)
      ensures verifyPending == (old(verifyPending) || sent.Some?)
    {
      if selected.Some? {
        sent := Some(selected.value.id);
        verifyPending := true;
      } else {
        sent := None;
      }
    }

    /** The verify request succeeded: the photo closes. */
    method VerifySucceeded()
      modifies this`selected, this`verifyPending
      ensures selected == None && !verifyPending
    {
      selected := None;
      verifyPending := false;
    }

    /**
     * `handleReject`: asks to reject the open photo with the trimmed reason,
     * and only when a photo is open and the reason is not blank.
     */
    method HandleReject() returns (sent: Option<(string, string)>)
      modifies this`rejectPending
      ensures sent.Some? <==> old(selected).Some? && Trim(rejectReason) != ""
      ensures sent.Some? ==> sent.value == (old(selected).value.id, Trim(rejectReason))
      ensures sent.Some? ==> sent.value.1 != "" && !IsSpace(sent.value.1[0])
      ensures rejectPending == (old(rejectPending) || sent.Some?)
    {
      var reason := Trim(rejectReason);
      if selected.Some? && reason != "" {
        sent := Some((selected.value.id, reason));
        rejectPending := true;
      } else {
        sent := None;
      }
    }

    /** The reject request succeeded: the photo and the dialog close and the reason is emptied. */
    method RejectSucceeded()
      modifies this`selected, this`showRejectModal, this`rejectReason, this`rejectPending
      ensures selected == None && !showRejectModal && rejectReason == "" && !rejectPending
    {
      selected := None;
      showRejectModal := false;
      rejectReason := "";
      rejectPending := false;
    }

    /** A click on a thumbnail opens that photo. */
    method OpenPhoto(p: Photo)
      modifies this`selected
      ensures selected == Some(p)
    {
      selected := Some(p);
    }

    /** A click on the backdrop or the close button of the photo dialog. */
    method ClosePhoto()
      modifies this`selected
      ensures selected == None
    {
      selected := None;
    }

    /** Typing in the reason box: the text is kept as typed. */
    method TypeRejectReason(text: string)
      modifies this`rejectReason
      ensures rejectReason == text
    {
      rejectReason := text;
    }

    /** `handleOpenRejectModal`: the dialog opens, with whatever reason was last typed. */
    method OpenRejectModal()
      modifies this`showRejectModal
      ensures showRejectModal
    {
      showRejectModal := true;
    }

    /** `handleCloseRejectModal`: the dialog closes and forgets the reason; the photo stays open. */
    method CloseRejectModal()
      modifies this`showRejectModal, this`rejectReason
      ensures !showRejectModal && rejectReason == ""
    {
      showRejectModal := false;
      rejectReason := "";
    }
  }

  /**
   * Opening a photo, opening the dialog, typing a reason and confirming:
   * the photo's id and the trimmed reason are sent exactly when the reason
   * is not blank.
   */
  method RejectTypedReason(p: Photo, reason: string) returns (sent: Option<(string, string)>)
    ensures sent.Some? <==> !AllSpace(reason)
    ensures sent.Some? ==> sent.value == (p.id, Trim(reason))
  {
    var tab := new PhotosTab();
    tab.OpenPhoto(p);
    tab.OpenRejectModal();
    tab.TypeRejectReason(reason);
    sent := tab.HandleReject();
  }

  /** A verified photo cannot be approved again: its approve button is disabled whatever else holds. */
  lemma VerifiedPhotoCannotBeApproved(tab: PhotosTab)
    requires tab.selected.Some? && Verified(tab.selected.value)
    ensures tab.ApproveDisabled()
  {
  }

  /** The confirm button is enabled exactly when, with a photo open and nothing in flight, a click sends a request. */
  lemma ConfirmEnabledIffRejectSends(reason: string, rejectPending: bool)
    ensures !(Trim(reason) == "" || rejectPending) <==> !rejectPending && !AllSpace(reason)
  {
  }

  // ---------------------------------------------------------------------------
  // NotesTab

  /** `DOCTOR_COMMENT_ROLES`. */
  const CommentRoles: seq<string> := ["doctor", "admin"]

  /** `canAddComments`: the user's role must be a non-empty role the list holds. */
  predicate CanAddComments(role: Option<string>)
  {
    Truthy(role) && role.value in CommentRoles
  }

  lemma CanAddCommentsIff(role: Option<string>)
    ensures CanAddComments(role) <==> role == Some("doctor") || role == Some("admin")
  {
  }

  /** The parts of a note the tab looks at. */
  datatype Comment = Comment(id: string, userId: string, comment: string, isPinned: bool)

  /** The pin and delete controls: shown only on the current user's own notes (`comment.user_id === currentUserId`). */
  predicate OwnsComment(c: Comment, currentUserId: Option<string>)
  {
    currentUserId == Some(c.userId)
  }

  /** Without a current user no note shows the controls; with one, only that user's notes do. */
  lemma OwnsCommentIff(c: Comment, currentUserId: Option<string>)
    ensures currentUserId.None? ==> !OwnsComment(c, currentUserId)
    ensures currentUserId.Some? ==> (OwnsComment(c, currentUserId) <==> c.userId == currentUserId.value)
  {
  }

  /** The values the note-type select offers; `note` is the default. */
  const CommentTypes: seq<string> := ["note", "diagnosis", "recommendation", "internal", "followup"]

  /** The state of the notes form. */
  class NotesTab {
    var newComment: string
    var commentType: string
    var createPending: bool

    constructor()
      ensures newComment == "" && commentType == "note" && !createPending
    {
      newComment := "";
      commentType := "note";
      createPending := false;
    }

    /** The type select's `onChange`: it emits one of its options. */
    method SelectCommentType(t: string)
      requires t in CommentTypes
      modifies this`commentType
      ensures commentType == t
    {
      commentType := t;
    }

    /** Typing in the note box: the text is kept as typed. */
    method TypeComment(text: string)
      modifies this`newComment
      ensures newComment == text
    {
      newComment := text;
    }

    /** The submit button is disabled for a blank note or while one is being sent. */
    predicate SubmitDisabled()
      reads this
    {
      Trim(newComment) == "" || createPending
    }

    /** `handleSubmit`: a blank note is not sent; otherwise the text is sent as typed, untrimmed, with its type. */
    method HandleSubmit() returns (sent: Option<(string, string)>)
      modifies this`createPending
      ensures sent.Some? <==> !AllSpace(newComment)
      ensures sent.Some? ==> sent.value == (newComment, commentType)
      ensures createPending == (old(createPending) || sent.Some?)
    {
      if Trim(newComment) == "" {
        sent := None;
      } else {
        sent := Some((newComment, commentType));
        createPending := true;
      }
    }

    /** The note was created: the form empties. */
    method CreateSucceeded()
      modifies this`newComment, this`createPending
      ensures newComment == "" && !createPending && SubmitDisabled()
    {
      newComment := "";
      createPending := false;
    }
  }

  /** Choosing a type, typing a note and submitting: the text as typed and the type are sent exactly when the text is not blank. */
  method SubmitTypedNote(t: string, text: string) returns (sent: Option<(string, string)>)
    requires t in CommentTypes
    ensures sent.Some? <==> !AllSpace(text)
    ensures sent.Some? ==> sent.value == (text, t)
  {
    var tab := new NotesTab();
    tab.SelectCommentType(t);
    tab.TypeComment(text);
    sent := tab.HandleSubmit();
  }
}
