/** The sign-in page: loading the user directory, inferring the billing mode,
    offering users and writing the chosen user into the state store. */
module Auth {
  import opened Wrappers
  import SessionState

  /** A directory user. A missing or empty name is the empty string. */
  datatype User = User(id: string, name: string)

  /** The directory response; a field that is missing or not an array is
      `None`. */
  datatype UsersResponse = UsersResponse(children: Option<seq<User>>, referralCustomers: Option<seq<User>>)

  /** The module's `usersCache`, whose two lists are always arrays. */
  datatype UsersCache = UsersCache(children: seq<User>, referralCustomers: seq<User>)

  const EmptyCache: UsersCache := UsersCache([], [])

  /** `Array.isArray(v) ? v : []` */
  function AsList(v: Option<seq<User>>): (l: seq<User>)
    ensures v.None? ==> l == []
    ensures v.Some? ==> l == v.value
  {
    if v.Some? then v.value else []
  }

  /** The cache `loadUsers` keeps: each list as sent when it is an array,
      otherwise empty. */
  function Normalize(data: UsersResponse): (c: UsersCache)
    ensures data.children.Some? ==> c.children == data.children.value
    ensures data.children.None? ==> c.children == []
    ensures data.referralCustomers.Some? ==> c.referralCustomers == data.referralCustomers.value
    ensures data.referralCustomers.None? ==> c.referralCustomers == []
  {
    UsersCache(AsList(data.children), AsList(data.referralCustomers))
  }

  /** Billing mode: decentralized exactly when there are referral customers. */
  function InferMode(cache: UsersCache): (m: string)
    ensures m == SessionState.Decentralized <==> |cache.referralCustomers| > 0
    ensures m == SessionState.Centralized <==> |cache.referralCustomers| == 0
  {
    if |cache.referralCustomers| > 0 then SessionState.Decentralized else SessionState.Centralized
  }

  /** The list offered for selection: referral customers when decentralized,
      child users otherwise. */
  function OfferedList(cache: UsersCache): (l: seq<User>)
    ensures InferMode(cache) == SessionState.Decentralized ==> l == cache.referralCustomers
    ensures InferMode(cache) == SessionState.Centralized ==> l == cache.children
    ensures l == [] ==> InferMode(cache) == SessionState.Centralized
  {
    if InferMode(cache) == SessionState.Decentralized then cache.referralCustomers else cache.children
  }

  /** A directory response whose referral field is missing, not an array or
      empty yields centralized mode and offers the child users. */
  lemma NoReferralsMeansCentralized(data: UsersResponse)
    requires data.referralCustomers.None? || data.referralCustomers == Some([])
    ensures InferMode(Normalize(data)) == SessionState.Centralized
    ensures OfferedList(Normalize(data)) == AsList(data.children)
    ensures SessionState.ComputeAllowed(InferMode(Normalize(data))) == SessionState.Allowed(true, false, false, false)
  {
  }

  const EmDashSeparator: string := " \U{2014} "

  /** The text of a user's option: `name — id`, or the id alone. */
  function OptionLabel(u: User): (s: string)
    ensures u.name == "" ==> s == u.id
    ensures u.name != "" ==> s == u.name + EmDashSeparator + u.id
  {
    if u.name != "" then u.name + EmDashSeparator + u.id else u.id
  }

  /** The label saved for the chosen id: `name (id)` when the user was found
      and has a name, else the id. */
  function SavedLabel(found: Option<User>, id: string): (s: string)
    ensures found.Some? && found.value.name != "" ==> s == found.value.name + " (" + id + ")"
    ensures found.None? || found.value.name == "" ==> s == id
  {
    if found.Some? && found.value.name != "" then found.value.name + " (" + id + ")" else id
  }

  /** The option label ends with the id; the saved label ends with the id
      followed by `)`. */
  lemma LabelsEndWithId(u: User, found: Option<User>)
    ensures |OptionLabel(u)| >= |u.id| && OptionLabel(u)[|OptionLabel(u)| - |u.id|..] == u.id
    ensures found.None? || found.value.name == "" ==> SavedLabel(found, u.id) == u.id
    ensures found.Some? && found.value.name != "" ==>
      var s := SavedLabel(found, u.id);
      |s| >= |u.id| + 1 && s[|s| - |u.id| - 1..|s| - 1] == u.id && s[|s| - 1] == ')'
  {
    var s := OptionLabel(u);
    if u.name != "" {
      assert s == (u.name + EmDashSeparator) + u.id;
    }
    if found.Some? && found.value.name != "" {
      var t := SavedLabel(found, u.id);
      assert t == (found.value.name + " (") + u.id + ")";
    }
  }

  /** `list.find(u => u.id === id)`: the first user with that id. */
  function Find(list: seq<User>, id: string): (r: Option<User>)
    ensures r.None? <==> forall k :: 0 <= k < |list| ==> list[k].id != id
    ensures r.Some? ==> r.value.id == id && r.value in list
  {
    if list == [] then None
    else if list[0].id == id then Some(list[0])
    else Find(list[1..], id)
  }

  lemma {:induction false} FindFirst(list: seq<User>, id: string, k: nat)
    requires k < |list| && list[k].id == id
    requires forall j :: 0 <= j < k ==> list[j].id != id
    ensures Find(list, id) == Some(list[k])
  {
    if k > 0 {
      FindFirst(list[1..], id, k - 1);
    }
  }

  /** When ids are distinct, continuing with the value of the option built
      for `list[k]` finds exactly that user. */
  lemma FindsSelectedUser(list: seq<User>, k: nat)
    requires forall i, j :: 0 <= i < j < |list| ==> list[i].id != list[j].id
    requires k < |list|
    ensures Find(list, list[k].id) == Some(list[k])
  {
    FindFirst(list, list[k].id, k);
  }

  /** ECMAScript white space and line terminators, the characters `trim`
      removes. */
  predicate IsWhitespace(c: char) {
    || c == '\t' || c == '\n' || c == '\U{000B}' || c == '\U{000C}' || c == '\r' || c == ' '
    || c == '\U{00A0}' || c == '\U{1680}' || ('\U{2000}' <= c <= '\U{200A}')
    || c == '\U{2028}' || c == '\U{2029}' || c == '\U{202F}' || c == '\U{205F}'
    || c == '\U{3000}' || c == '\U{FEFF}'
  }

  function TrimStart(s: string): (r: string)
    ensures |r| <= |s| && r == s[|s| - |r|..]
    ensures forall i :: 0 <= i < |s| - |r| ==> IsWhitespace(s[i])
    ensures r != "" ==> !IsWhitespace(r[0])
  {
    if s != "" && IsWhitespace(s[0]) then TrimStart(s[1..]) else s
  }

  function TrimEnd(s: string): (r: string)
    ensures |r| <= |s| && r == s[..|r|]
    ensures forall i :: |r| <= i < |s| ==> IsWhitespace(s[i])
    ensures r != "" ==> !IsWhitespace(r[|r| - 1])
  {
    if s != "" && IsWhitespace(s[|s| - 1]) then TrimEnd(s[..|s| - 1]) else s
  }

  /** The length of the leading white-space run `trim` cuts off. */
  function LeadingSpace(s: string): (n: nat)
    ensures n <= |s|
    ensures forall i :: 0 <= i < n ==> IsWhitespace(s[i])
    ensures n < |s| ==> !IsWhitespace(s[n])
  {
    |s| - |TrimStart(s)|
  }

  /** Cutting a white-space suffix off the part of `s` after `n` leaves a
      slice of `s` after which there is only white space. */
  lemma SuffixOfSuffix(s: string, n: nat, left: string, r: string)
    requires n <= |s| && left == s[n..]
    requires |r| <= |left| && r == left[..|r|]
    requires forall i :: |r| <= i < |left| ==> IsWhitespace(left[i])
    ensures n + |r| <= |s| && r == s[n..n + |r|]
    ensures forall i :: n + |r| <= i < |s| ==> IsWhitespace(s[i])
  {
    forall i | n + |r| <= i < |s|
      ensures IsWhitespace(s[i])
    {
      assert s[i] == left[i - n];
    }
  }

  /** `String.prototype.trim`. The result is the input with a white-space
      prefix (of length `LeadingSpace(s)`) and a white-space suffix cut off;
      it is empty exactly when the input is all white space, and otherwise
      starts and ends with a non-space. */
  function Trim(s: string): (r: string)
    ensures LeadingSpace(s) + |r| <= |s| && r == s[LeadingSpace(s)..LeadingSpace(s) + |r|]
    ensures forall i :: LeadingSpace(s) + |r| <= i < |s| ==> IsWhitespace(s[i])
    ensures r == "" <==> forall i :: 0 <= i < |s| ==> IsWhitespace(s[i])
    ensures r != "" ==> !IsWhitespace(r[0]) && !IsWhitespace(r[|r| - 1])
  {
    var left := TrimStart(s);
    var r := TrimEnd(left);
    SuffixOfSuffix(s, |s| - |left|, left, r);
    r
  }

  lemma TrimIdempotent(s: string)
    ensures Trim(Trim(s)) == Trim(s)
  {
    var t := Trim(s);
    if t != "" {
      assert TrimStart(t) == t;
      assert TrimEnd(t) == t;
    }
  }

  /** The record the manual-id button saves: nothing for an id that trims to
      empty, otherwise the trimmed id as id and label, with the mode of the
      loaded directory and its flags. */
  function ManualPatch(cache: UsersCache, input: string): (p: Option<SessionState.Patch>)
    ensures p.None? <==> Trim(input) == ""
    ensures p.Some? ==>
      && p.value.activeUserId == Some(Trim(input)) && p.value.activeUserLabel == Some(Trim(input))
      && p.value.mode == Some(InferMode(cache)) && p.value.dark.None?
      && SessionState.KeepsAllowed(p.value)
  {
    var manual := Trim(input);
    if manual == "" then None
    else
      var mode := InferMode(cache);
      Some(SessionState.Patch(Some(manual), Some(manual), Some(mode), Some(SessionState.ComputeAllowed(mode)), None))
  }

  /** The record the continue button saves for the selected value. */
  function ContinuePatch(cache: UsersCache, id: string): (p: Option<SessionState.Patch>)
    ensures p.None? <==> id == ""
    ensures p.Some? ==>
      && p.value.activeUserId == Some(id)
      && p.value.activeUserLabel == Some(SavedLabel(Find(OfferedList(cache), id), id))
      && p.value.mode == Some(InferMode(cache)) && p.value.dark.None?
      && SessionState.KeepsAllowed(p.value)
  {
    if id == "" then None
    else
      var mode := InferMode(cache);
      var found := Find(OfferedList(cache), id);
      Some(SessionState.Patch(Some(id), Some(SavedLabel(found, id)), Some(mode), Some(SessionState.ComputeAllowed(mode)), None))
  }

  /** Every state write of the sign-in page keeps the store invariant. */
  lemma SelectionKeepsInvariant(ss: SessionState.Session, cache: UsersCache, input: string, id: string)
    requires SessionState.Invariant(ss)
    ensures ManualPatch(cache, input).Some? ==>
      SessionState.Invariant(SessionState.Save(ss, ManualPatch(cache, input).value))
    ensures ContinuePatch(cache, id).Some? ==>
      SessionState.Invariant(SessionState.Save(ss, ContinuePatch(cache, id).value))
  {
    if ManualPatch(cache, input).Some? {
      SessionState.SaveKeepsInvariant(ss, ManualPatch(cache, input).value);
    }
    if ContinuePatch(cache, id).Some? {
      SessionState.SaveKeepsInvariant(ss, ContinuePatch(cache, id).value);
    }
  }

  /** One `<option>` of the user select. */
  datatype SelectOption = SelectOption(value: string, text: string)

  /** The first option: an empty value, prompting for a choice or saying the
      list is empty. */
  function Placeholder(list: seq<User>): (o: SelectOption)
    ensures o.value == ""
    ensures o.text == "No users found" <==> list == []
  {
    SelectOption("", if |list| > 0 then "Select a user\U{2026}" else "No users found")
  }

  /** The options `buildUserOptions` appends: the placeholder, then one per
      user in list order. */
  method RenderOptions(list: seq<User>) returns (opts: seq<SelectOption>)
    ensures |opts| == |list| + 1
    ensures opts[0] == Placeholder(list) && opts[0].value == ""
    ensures forall i :: 0 <= i < |list| ==> opts[i + 1] == SelectOption(list[i].id, OptionLabel(list[i]))
  {
    opts := [Placeholder(list)];
    for i := 0 to |list|
      invariant |opts| == i + 1
      invariant opts[0] == Placeholder(list)
      invariant forall j :: 0 <= j < i ==> opts[j + 1] == SelectOption(list[j].id, OptionLabel(list[j]))
    {
      opts := opts + [SelectOption(list[i].id, OptionLabel(list[i]))];
    }
  }

  /** The widget properties the page writes. */
  datatype PickerView = PickerView(
    options: seq<SelectOption>,
    selectDisabled: bool,
    selectValue: string,
    continueDisabled: bool,
    modeHelp: string)

  const DecentralizedHelp: string :=
    "Decentralized billing detected (ReferralCustomers). Billing, Payment Logs, Reports enabled."
  const CentralizedHelp: string :=
    "Centralized billing detected (Child Users). Only Carrier Accounts enabled."

  /** The help text names the inferred billing mode and the pages it enables. */
  function ModeHelp(cache: UsersCache): (h: string)
    ensures h == DecentralizedHelp <==> |cache.referralCustomers| > 0
    ensures h == CentralizedHelp <==> |cache.referralCustomers| == 0
  {
    assert |DecentralizedHelp| != |CentralizedHelp|;
    if InferMode(cache) == SessionState.Decentralized then DecentralizedHelp else CentralizedHelp
  }

  /** What the page shows after a failed directory request. */
  const FailedView: PickerView :=
    PickerView([SelectOption("", "Failed to load")], true, "", true, "Failed to load users.")

  /** The sign-in page's module state and widgets. */
  class UserPicker {
    const store: SessionState.Store
    var usersCache: UsersCache
    var view: PickerView
    var redirect: Option<string>

    constructor (store: SessionState.Store)
      ensures this.store == store && usersCache == EmptyCache && redirect == None
    {
      this.store := store;
      usersCache := EmptyCache;
      view := PickerView([], false, "", false, "");
      redirect := None;
    }

    /** The view `buildUserOptions` leaves for the cached directory: the
        placeholder and one option per offered user in order, the select
        disabled iff there is nobody to offer, nothing selected, continue
        disabled, and the help text for the inferred mode. */
    ghost predicate ShowsDirectory()
      reads this
    {
      var list := OfferedList(usersCache);
      && |view.options| == |list| + 1
      && view.options[0] == Placeholder(list)
      && (forall i :: 0 <= i < |list| ==> view.options[i + 1] == SelectOption(list[i].id, OptionLabel(list[i])))
      && (view.selectDisabled <==> list == [])
      && view.selectValue == "" && view.continueDisabled
      && view.modeHelp == ModeHelp(usersCache)
    }

    method BuildUserOptions()
      modifies this
      ensures usersCache == old(usersCache) && redirect == old(redirect)
      ensures ShowsDirectory()
    {
      var list := OfferedList(usersCache);
      var opts := RenderOptions(list);
      view := PickerView(opts, |list| == 0, "", true, ModeHelp(usersCache));
    }

    /** `loadUsers`, given the directory response, or `None` when the request
        failed. A failure keeps the cache and shows a disabled select. */
    method LoadUsers(response: Option<UsersResponse>)
      modifies this
      ensures redirect == old(redirect)
      ensures response.None? ==> usersCache == old(usersCache) && view == FailedView
      ensures response.Some? ==> usersCache == Normalize(response.value) && ShowsDirectory()
    {
      view := PickerView([SelectOption("", "Loading\U{2026}")], true, "", true, view.modeHelp);
      if response.None? {
        view := PickerView([SelectOption("", "Failed to load")], true, "", view.continueDisabled, "Failed to load users.");
        return;
      }
      usersCache := Normalize(response.value);
      BuildUserOptions();
    }

    /** Choosing an option enables continue exactly for a non-empty value. */
    method OnSelectChange(value: string)
      modifies this
      ensures view == old(view).(selectValue := value, continueDisabled := value == "")
      ensures usersCache == old(usersCache) && redirect == old(redirect)
    {
      view := view.(selectValue := value, continueDisabled := value == "");
    }

    method OnUseManual(input: string)
      modifies this, store
      ensures usersCache == old(usersCache)
      ensures ManualPatch(usersCache, input).None? ==>
        && store.Snapshot() == old(store.Snapshot())
        && view == old(view) && redirect == old(redirect)
      ensures ManualPatch(usersCache, input).Some? ==>
        && store.Snapshot() == SessionState.Save(old(store.Snapshot()), ManualPatch(usersCache, input).value)
        && view == old(view).(selectValue := "", selectDisabled := true)
        && redirect == Some("/dashboard.html")
    {
      var patch := ManualPatch(usersCache, input);
      if patch.None? {
        return;
      }
      view := view.(selectValue := "", selectDisabled := true);
      var _ := store.SaveState(patch.value);
      redirect := Some("/dashboard.html");
    }

    method OnContinue()
      modifies this, store
      ensures usersCache == old(usersCache) && view == old(view)
      ensures ContinuePatch(usersCache, view.selectValue).None? ==>
        store.Snapshot() == old(store.Snapshot()) && redirect == old(redirect)
      ensures ContinuePatch(usersCache, view.selectValue).Some? ==>
        && store.Snapshot() == SessionState.Save(old(store.Snapshot()), ContinuePatch(usersCache, view.selectValue).value)
        && redirect == Some("/dashboard.html")
    {
      var id := view.selectValue;
      if id == "" {
        return;
      }
      var mode := InferMode(usersCache);
      var list := OfferedList(usersCache);
      var found := Find(list, id);
      var _ := store.SaveState(SessionState.Patch(
        Some(id), Some(SavedLabel(found, id)), Some(mode), Some(SessionState.ComputeAllowed(mode)), None));
      redirect := Some("/dashboard.html");
    }

    /** Page load: any previous session is cleared, then the directory is
        loaded. */
    method Start(response: Option<UsersResponse>)
      modifies this, store
      ensures store.Snapshot() == SessionState.Clear(old(store.Snapshot()))
      ensures redirect == old(redirect)
      ensures response.None? ==> usersCache == old(usersCache) && view == FailedView
      ensures response.Some? ==> usersCache == Normalize(response.value) && ShowsDirectory()
    {
      var _ := store.ClearState();
      LoadUsers(response);
    }
  }
}
