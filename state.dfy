/** The browser state store: one module-level session record, mirrored into a
    string-keyed session storage under a single key. */
module SessionState {
  import opened Wrappers

  /** The storage key holding the serialised session record. */
  const Key: string := "ep_demo_session_v1"

  const Centralized: string := "centralized"
  const Decentralized: string := "decentralized"

  /** Per-page enablement flags. */
  datatype Allowed = Allowed(carriers: bool, billing: bool, paymentlogs: bool, reports: bool)

  /** The session record. `mode` is kept as the source keeps it, a string. */
  datatype State = State(
    activeUserId: string,
    activeUserLabel: string,
    mode: string,
    allowed: Allowed,
    dark: bool)

  /** A partial record, as passed to `saveState` or parsed back from storage:
      a key that is absent from the object is `None`. */
  datatype Patch = Patch(
    activeUserId: Option<string>,
    activeUserLabel: Option<string>,
    mode: Option<string>,
    allowed: Option<Allowed>,
    dark: Option<bool>)

  /** What the storage holds under a key: a record that parses, or text that
      is empty or fails to parse. */
  datatype Stored = Record(patch: Patch) | Unreadable

  /** The in-memory record together with the session storage. */
  datatype Session = Session(state: State, storage: map<string, Stored>)

  /** The flags a billing mode enables: carriers always, the other three
      pages exactly in decentralized mode. */
  function ComputeAllowed(mode: string): (a: Allowed)
    ensures a.carriers
    ensures a.billing <==> mode == Decentralized
    ensures a.paymentlogs <==> mode == Decentralized
    ensures a.reports <==> mode == Decentralized
  {
    var decentralized := mode == Decentralized;
    Allowed(true, decentralized, decentralized, decentralized)
  }

  /** The store's invariant: the flags are the ones the mode calls for. */
  predicate Consistent(s: State) {
    s.allowed == ComputeAllowed(s.mode)
  }

  /** The signed-out record the module starts from and `clearState` restores. */
  const Defaults: State :=
    State("", "", Centralized, Allowed(true, false, false, false), false)

  lemma DefaultsAreSignedOut()
    ensures Defaults.activeUserId == "" && Defaults.activeUserLabel == ""
    ensures Defaults.mode == Centralized && !Defaults.dark
    ensures Defaults.allowed == Allowed(true, false, false, false)
    ensures Consistent(Defaults)
  {
  }

  /** The patch with every key present, i.e. what serialising a whole record
      and parsing it back gives. */
  function FullPatch(s: State): Patch {
    Patch(Some(s.activeUserId), Some(s.activeUserLabel), Some(s.mode), Some(s.allowed), Some(s.dark))
  }

  const EmptyPatch: Patch := Patch(None, None, None, None, None)

  /** Object spread `{ ...s, ...p }`: every key present in `p` wins, every
      other key keeps its value in `s`; `allowed` is replaced as a whole. */
  function Merge(s: State, p: Patch): (r: State)
    ensures p.activeUserId.Some? ==> r.activeUserId == p.activeUserId.value
    ensures p.activeUserId.None? ==> r.activeUserId == s.activeUserId
    ensures p.activeUserLabel.Some? ==> r.activeUserLabel == p.activeUserLabel.value
    ensures p.activeUserLabel.None? ==> r.activeUserLabel == s.activeUserLabel
    ensures p.mode.Some? ==> r.mode == p.mode.value
    ensures p.mode.None? ==> r.mode == s.mode
    ensures p.allowed.Some? ==> r.allowed == p.allowed.value
    ensures p.allowed.None? ==> r.allowed == s.allowed
    ensures p.dark.Some? ==> r.dark == p.dark.value
    ensures p.dark.None? ==> r.dark == s.dark
  {
    State(
      if p.activeUserId.Some? then p.activeUserId.value else s.activeUserId,
      if p.activeUserLabel.Some? then p.activeUserLabel.value else s.activeUserLabel,
      if p.mode.Some? then p.mode.value else s.mode,
      if p.allowed.Some? then p.allowed.value else s.allowed,
      if p.dark.Some? then p.dark.value else s.dark)
  }

  lemma MergeFullPatch(s: State, t: State)
    ensures Merge(s, FullPatch(t)) == t
  {
  }

  lemma MergeEmptyPatch(s: State)
    ensures Merge(s, EmptyPatch) == s
  {
  }

  lemma MergeIdempotent(s: State, p: Patch)
    ensures Merge(Merge(s, p), p) == Merge(s, p)
  {
  }

  /** `loadState`: with no readable entry under the key the record stays as it
      is; otherwise the parsed record is merged over it. Storage is untouched. */
  function Load(ss: Session): (r: Session)
    ensures r.storage == ss.storage
    ensures Key !in ss.storage || ss.storage[Key].Unreadable? ==> r == ss
    ensures Key in ss.storage && ss.storage[Key].Record? ==>
              r.state == Merge(ss.state, ss.storage[Key].patch)
  {
    if Key in ss.storage && ss.storage[Key].Record? then
      Session(Merge(ss.state, ss.storage[Key].patch), ss.storage)
    else
      ss
  }

  /** `saveState(next)`: shallow merge, then the whole new record is written
      under the key; no other key is touched. */
  function Save(ss: Session, next: Patch): (r: Session)
    ensures r.state == Merge(ss.state, next)
    ensures Key in r.storage && r.storage[Key] == Record(FullPatch(r.state))
    ensures forall k :: k != Key ==> (k in r.storage <==> k in ss.storage)
    ensures forall k :: k != Key && k in ss.storage ==> r.storage[k] == ss.storage[k]
  {
    var s := Merge(ss.state, next);
    Session(s, ss.storage[Key := Record(FullPatch(s))])
  }

  /** `clearState`: back to the defaults, the key removed, other keys kept. */
  function Clear(ss: Session): (r: Session)
    ensures r.state == Defaults
    ensures Key !in r.storage
    ensures forall k :: k != Key ==> (k in r.storage <==> k in ss.storage)
    ensures forall k :: k != Key && k in ss.storage ==> r.storage[k] == ss.storage[k]
  {
    Session(Defaults, ss.storage - {Key})
  }

  /** A save followed by a load gives back exactly what was saved. */
  lemma SaveThenLoad(ss: Session, next: Patch)
    ensures Load(Save(ss, next)) == Save(ss, next)
    ensures Load(Save(ss, next)).state == Merge(ss.state, next)
  {
    var s1 := Save(ss, next);
    MergeFullPatch(s1.state, s1.state);
  }

  lemma ClearIdempotent(ss: Session)
    ensures Clear(Clear(ss)) == Clear(ss)
  {
  }

  /** After a clear, a load finds nothing and leaves the defaults in place. */
  lemma ClearThenLoad(ss: Session)
    ensures Load(Clear(ss)) == Clear(ss)
    ensures Load(Clear(ss)).state == Defaults
  {
  }

  /** A patch that cannot break `Consistent`: whoever sets the mode sets the
      matching flags, and nobody sets the flags alone. */
  predicate KeepsAllowed(p: Patch) {
    && (p.mode.Some? ==> p.allowed == Some(ComputeAllowed(p.mode.value)))
    && (p.mode.None? ==> p.allowed.None?)
  }

  lemma MergeKeepsConsistent(s: State, p: Patch)
    requires Consistent(s) && KeepsAllowed(p)
    ensures Consistent(Merge(s, p))
  {
  }

  /** A whole record keeps the invariant exactly when it satisfies it. */
  lemma FullPatchKeepsAllowed(s: State)
    ensures KeepsAllowed(FullPatch(s)) <==> Consistent(s)
  {
  }

  /** The store invariant over memory and storage alike. */
  predicate Invariant(ss: Session) {
    && Consistent(ss.state)
    && (Key in ss.storage && ss.storage[Key].Record? ==> KeepsAllowed(ss.storage[Key].patch))
  }

  lemma InitialInvariant(storage: map<string, Stored>)
    requires Key !in storage || storage[Key].Unreadable? || KeepsAllowed(storage[Key].patch)
    ensures Invariant(Session(Defaults, storage))
  {
  }

  lemma SaveKeepsInvariant(ss: Session, next: Patch)
    requires Invariant(ss) && KeepsAllowed(next)
    ensures Invariant(Save(ss, next))
  {
    MergeKeepsConsistent(ss.state, next);
    FullPatchKeepsAllowed(Merge(ss.state, next));
  }

  lemma LoadKeepsInvariant(ss: Session)
    requires Invariant(ss)
    ensures Invariant(Load(ss))
  {
    if Key in ss.storage && ss.storage[Key].Record? {
      MergeKeepsConsistent(ss.state, ss.storage[Key].patch);
    }
  }

  lemma ClearEstablishesInvariant(ss: Session)
    ensures Invariant(Clear(ss))
  {
  }

  /** Two modes give the same flags exactly when both or neither are
      decentralized; so the flags of a consistent record tell its billing
      topology. */
  lemma ComputeAllowedSameIff(m1: string, m2: string)
    ensures ComputeAllowed(m1) == ComputeAllowed(m2) <==> ((m1 == Decentralized) <==> (m2 == Decentralized))
  {
  }

  /** The module-level record and the browser's session storage. */
  class Store {
    var state: State
    var storage: map<string, Stored>

    function Snapshot(): Session
      reads this
    {
      Session(state, storage)
    }

    /** Module evaluation: the record starts at the defaults, the storage is
        whatever the tab already holds. */
    constructor (existing: map<string, Stored>)
      ensures state == Defaults && storage == existing
    {
      state := Defaults;
      storage := existing;
    }

    method LoadState() returns (s: State)
      modifies this
      ensures Snapshot() == Load(old(Snapshot()))
      ensures s == state
    {
      if Key in storage && storage[Key].Record? {
        state := Merge(state, storage[Key].patch);
      }
      s := state;
    }

    method SaveState(next: Patch) returns (s: State)
      modifies this
      ensures Snapshot() == Save(old(Snapshot()), next)
      ensures s == state
    {
      state := Merge(state, next);
      storage := storage[Key := Record(FullPatch(state))];
      s := state;
    }

    method ClearState() returns (s: State)
      modifies this
      ensures Snapshot() == Clear(old(Snapshot()))
      ensures s == state
    {
      state := Defaults;
      storage := storage - {Key};
      s := state;
    }

    /** A copy of the current record; nothing changes. */
    method GetState() returns (s: State)
      ensures s == state
    {
      s := state;
    }
  }
}
