/** The groups page: the user's groups, the create form, and the add-member
    form that at most one group has open at a time. */
module GroupsPage {
  import opened Http
  import opened Domain
  import opened Text

  /** The add-member controls appear only on groups the user created. */
  predicate AddMemberControls(g: Group, user: User)
  {
    g.createdBy == user.id
  }

  /** Whether the add-member form of group `groupId` is open, given the
      single slot `showAddMemberForm`. */
  predicate FormOpenFor(slot: Option<string>, groupId: string)
  {
    slot == Some(groupId)
  }

  /** The slot holds at most one group: no two different groups have their
      form open at once, and a cleared slot opens none. */
  lemma SingleSlot(slot: Option<string>, g: string, g': string)
    ensures FormOpenFor(slot, g) && FormOpenFor(slot, g') ==> g == g'
    ensures slot.None? ==> !FormOpenFor(slot, g)
  {
  }

  /** A group's add-member form is drawn: the user created the group and
      the slot names it. */
  predicate AddMemberFormShown(g: Group, user: User, slot: Option<string>)
  {
    AddMemberControls(g, user) && FormOpenFor(slot, g.id)
  }

  /** The groups of the page that show their add-member form, in order. */
  function FormsShown(groups: seq<Group>, user: User, slot: Option<string>): (shown: seq<Group>)
    ensures forall g :: g in shown <==> g in groups && AddMemberFormShown(g, user, slot)
    ensures forall i :: 0 <= i < |shown| ==> shown[i].createdBy == user.id && slot == Some(shown[i].id)
    ensures slot.None? ==> shown == []
  {
    if groups == [] then []
    else (if AddMemberFormShown(groups[0], user, slot) then [groups[0]] else [])
         + FormsShown(groups[1..], user, slot)
  }

  /** No two groups of the list share an id. */
  predicate DistinctIds(groups: seq<Group>)
  {
    forall i, j :: 0 <= i < j < |groups| ==> groups[i].id != groups[j].id
  }

  /** Groups whose id the slot does not name show no form. */
  lemma {:induction false} NoneShownElsewhere(groups: seq<Group>, user: User, slot: Option<string>)
    requires forall j :: 0 <= j < |groups| ==> slot != Some(groups[j].id)
    ensures FormsShown(groups, user, slot) == []
  {
    if groups != [] {
      NoneShownElsewhere(groups[1..], user, slot);
    }
  }

  /** With distinct group ids, at most one group on the page shows its
      add-member form, and only one the user created. */
  lemma {:induction false} AtMostOneFormShown(groups: seq<Group>, user: User, slot: Option<string>)
    requires DistinctIds(groups)
    ensures |FormsShown(groups, user, slot)| <= 1
  {
    if groups != [] {
      var rest := groups[1..];
      assert DistinctIds(rest) by {
        forall i, j | 0 <= i < j < |rest|
          ensures rest[i].id != rest[j].id
        {
          assert rest[i] == groups[i + 1] && rest[j] == groups[j + 1];
        }
      }
      AtMostOneFormShown(rest, user, slot);
      if AddMemberFormShown(groups[0], user, slot) {
        // No later group has the first group's id, so none of them shows.
        NoneShownElsewhere(rest, user, slot);
      }
    }
  }

  /** The "Members (n)" heading, n printed in decimal. */
  function MembersHeading(g: Group): string
  {
    "Members (" + Digits(|g.members|) + ")"
  }

  /** The number in the heading reads back as the number of members. */
  lemma MembersHeadingCount(g: Group)
    ensures var h := MembersHeading(g);
      |h| >= 11 && h[..9] == "Members (" && h[|h| - 1] == ')'
      && (forall i :: 9 <= i < |h| - 1 ==> '0' <= h[i] <= '9')
      && DigitsValue(h[9..|h| - 1]) == |g.members|
  {
    var h := MembersHeading(g);
    assert h[9..|h| - 1] == Digits(|g.members|);
    DigitsRoundTrip(|g.members|);
  }

  /** The description line is drawn only for a non-empty description. */
  predicate DescriptionShown(g: Group)
  {
    g.description != ""
  }

  /** The create form's fields. */
  datatype GroupForm = GroupForm(name: string, description: string)

  const EmptyGroupForm := GroupForm("", "")

  /** The add-member request: the group from the form and the email typed. */
  datatype AddMemberRequest = AddMemberRequest(groupId: string, email: string)

  class Groups {
    var groups: seq<Group>
    var showCreateForm: bool
    /** The id of the one group whose add-member form is open, if any. */
    var showAddMemberForm: Option<string>
    var formData: GroupForm
    var addMemberEmail: string
    var loading: bool
    var error: string

    constructor ()
      ensures groups == [] && !showCreateForm && showAddMemberForm == None
      ensures formData == EmptyGroupForm && addMemberEmail == "" && !loading && error == ""
    {
      groups, showCreateForm, showAddMemberForm := [], false, None;
      formData, addMemberEmail, loading, error := EmptyGroupForm, "", false, "";
    }

    /** `fetchGroups`. */
    method FetchGroups(response: Response<seq<Group>>)
      modifies this
      ensures response.Ok? ==> groups == response.data && error == old(error)
      ensures response.Fail? ==> groups == old(groups) && error == "Failed to fetch groups"
      ensures showCreateForm == old(showCreateForm) && showAddMemberForm == old(showAddMemberForm)
      ensures formData == old(formData) && addMemberEmail == old(addMemberEmail) && loading == old(loading)
    {
      if response.Ok? {
        groups := response.data;
      } else {
        error := "Failed to fetch groups";
      }
    }

    /** "Add Member" on a group: its form opens and any other one closes. */
    method OpenAddMemberForm(groupId: string)
      modifies this`showAddMemberForm
      ensures FormOpenFor(showAddMemberForm, groupId)
      ensures forall g :: g != groupId ==> !FormOpenFor(showAddMemberForm, g)
    {
      showAddMemberForm := Some(groupId);
    }

    /** "Cancel" on the add-member form: no form is open. */
    method CancelAddMemberForm()
      modifies this`showAddMemberForm
      ensures forall g :: !FormOpenFor(showAddMemberForm, g)
    {
      showAddMemberForm := None;
    }

    /** "Create Group" and "Cancel". */
    method SetCreateFormOpen(open: bool)
      modifies this`showCreateForm
      ensures showCreateForm == open
    {
      showCreateForm := open;
    }

    /** Typing in the create form changes the edited field only. */
    method EditGroupForm(name: Option<string>, description: Option<string>)
      modifies this`formData
      ensures formData.name == if name.Some? then name.value else old(formData.name)
      ensures formData.description == if description.Some? then description.value else old(formData.description)
    {
      if name.Some? {
        formData := formData.(name := name.value);
      }
      if description.Some? {
        formData := formData.(description := description.value);
      }
    }

    /** Typing in the add-member form replaces the email. */
    method EditAddMemberEmail(email: string)
      modifies this`addMemberEmail
      ensures addMemberEmail == email
    {
      addMemberEmail := email;
    }

    /** `handleCreateGroup`: on success the form is emptied and hidden and
        the groups are re-fetched; on failure the error shows the server's
        message or the default. Loading is over afterwards either way. */
    method HandleCreateGroup(post: Response<()>, refetch: Response<seq<Group>>)
      returns (request: GroupForm, refetched: bool)
      modifies this
      ensures request == old(formData)
      ensures !loading && refetched == post.Ok?
      ensures showAddMemberForm == old(showAddMemberForm) && addMemberEmail == old(addMemberEmail)
      ensures post.Ok? ==> formData == EmptyGroupForm && !showCreateForm
      ensures post.Ok? ==> groups == (if refetch.Ok? then refetch.data else old(groups))
      ensures post.Ok? ==> error == (if refetch.Ok? then "" else "Failed to fetch groups")
      ensures post.Fail? ==> formData == old(formData) && showCreateForm == old(showCreateForm) && groups == old(groups)
      ensures post.Fail? ==> error == ErrorText(post.message, "Failed to create group")
    {
      loading := true;
      error := "";
      request := formData;
      if post.Ok? {
        formData := EmptyGroupForm;
        showCreateForm := false;
        refetched := true;
        FetchGroups(refetch);
      } else {
        error := ErrorText(post.message, "Failed to create group");
        refetched := false;
      }
      loading := false;
    }

    /** `handleAddMember(groupId)`: on success the email is cleared, the
        form closes and the groups are re-fetched; on failure the error
        shows the server's message or the default and the form stays open.
        Loading is over afterwards either way. */
    method HandleAddMember(groupId: string, post: Response<()>, refetch: Response<seq<Group>>)
      returns (request: AddMemberRequest, refetched: bool)
      modifies this
      ensures request == AddMemberRequest(groupId, old(addMemberEmail))
      ensures !loading && refetched == post.Ok?
      ensures formData == old(formData) && showCreateForm == old(showCreateForm)
      ensures post.Ok? ==> addMemberEmail == "" && showAddMemberForm == None
      ensures post.Ok? ==> groups == (if refetch.Ok? then refetch.data else old(groups))
      ensures post.Ok? ==> error == (if refetch.Ok? then "" else "Failed to fetch groups")
      ensures post.Fail? ==> addMemberEmail == old(addMemberEmail) && showAddMemberForm == old(showAddMemberForm)
      ensures post.Fail? ==> groups == old(groups) && error == ErrorText(post.message, "Failed to add member")
    {
      loading := true;
      error := "";
      request := AddMemberRequest(groupId, addMemberEmail);
      if post.Ok? {
        addMemberEmail := "";
        showAddMemberForm := None;
        refetched := true;
        FetchGroups(refetch);
      } else {
        error := ErrorText(post.message, "Failed to add member");
        refetched := false;
      }
      loading := false;
    }
  }
}
