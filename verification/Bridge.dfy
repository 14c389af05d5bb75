/**
 * The stdio to SSE bridge. Every stretch of code between two awaits is one step; any number of client lines, logins and
 * deliveries interleave with one another and with the reconnect body in any order.
 */
module Bridge {
  import opened Outcomes
  import opened Text

  datatype Id = Num(n: int) | Str(s: string)

  datatype Creds = Creds(account: string, key: string, relayer: string)

  /** A JSON-RPC message from the client; `tool` and `namespace` are params.name and a string params.arguments.namespace. */
  datatype Message = Message(id: Option<Id>, method_: Option<string>, tool: Option<string>, namespace: Option<string>, rest: string)

  /** A message from the relayer; `tools` is the tool list of a result object that has one. */
  datatype Incoming = Incoming(id: Option<Id>, hasResult: bool, hasError: bool, resultIsObject: bool, tools: Option<seq<string>>)

  datatype Content = AccountChanged | Forwarded(message: Incoming) | Local(text: string)
  datatype Out = Out(id: Option<Id>, content: Content)

  /** An SSE session with the credentials, and their generation, that opened it. */
  datatype Session = Session(creds: Creds, generation: nat)

  /** A tracked request and the account it was accepted under. */
  datatype Entry = Entry(msg: Message, account: string)

  // ---- The variables of runBridge and what the synchronous stretches do to them ----

  datatype Vars = Vars(
    creds: Creds,
    generation: nat,
    active: nat,
    sse: Session,
    stdinClosed: bool,
    inFlight: seq<Entry>,       // in insertion order, one entry per id
    pendingLists: set<Id>,
    stdout: seq<Out>)

  const NAMESPACE_TOOLS := {"memwal_remember", "memwal_recall", "memwal_analyze", "memwal_restore"}
  const LOCAL_TOOLS := ["memwal_login", "memwal_logout"]

  /** applyDefaultNamespace: a non-blank namespace of the caller always wins. */
  function ApplyDefaultNamespace(m: Message, default_: Option<string>): Message {
    if default_.None? || default_.value == "" || m.method_ != Some("tools/call") then m
    else if m.tool.None? || m.tool.value !in NAMESPACE_TOOLS then m
    else if m.namespace.Some? && Trim(m.namespace.value) != "" then m
    else m.(namespace := default_)
  }

  predicate Tracked(m: Message) {
    m.method_.Some? && m.id.Some?
  }

  /** Map.set: an id already present keeps its place. */
  function Put(entries: seq<Entry>, e: Entry): seq<Entry> {
    if entries == [] then [e]
    else if entries[0].msg.id == e.msg.id then [e] + entries[1..]
    else [entries[0]] + Put(entries[1..], e)
  }

  /** Map.delete. */
  function Remove(entries: seq<Entry>, id: Option<Id>): seq<Entry> {
    if entries == [] then []
    else if entries[0].msg.id == id then Remove(entries[1..], id)
    else [entries[0]] + Remove(entries[1..], id)
  }

  function Accept(v: Vars, m: Message): Vars {
    var v1 := if m.method_ == Some("tools/list") && m.id.Some? then v.(pendingLists := v.pendingLists + {m.id.value}) else v;
    if Tracked(m) then v1.(inFlight := Put(v.inFlight, Entry(m, v.creds.account))) else v1
  }

  function AccountErrors(entries: seq<Entry>): seq<Out> {
    if entries == [] then [] else AccountErrors(entries[..|entries| - 1]) + [Out(entries[|entries| - 1].msg.id, AccountChanged)]
  }

  function IdsOf(entries: seq<Entry>): set<Id> {
    set e | e in entries && e.msg.id.Some? :: e.msg.id.value
  }

  /** adoptCredentials up to its first await. */
  function Adopt(v: Vars, next: Creds): Vars {
    var cleared :=
      if v.creds.account == next.account then v
      else v.(stdout := v.stdout + AccountErrors(v.inFlight), pendingLists := v.pendingLists - IdsOf(v.inFlight), inFlight := []);
    cleared.(creds := next, generation := v.generation + 1)
  }

  function Splice(m: Incoming): Incoming {
    if m.tools.Some? then m.(tools := Some(m.tools.value + LOCAL_TOOLS)) else m
  }

  predicate IsResponse(m: Incoming) {
    (m.hasResult || m.hasError) && m.id.Some?
  }

  /** One turn of the server pump's inner loop. */
  function Deliver(v: Vars, m: Incoming): Vars {
    var v1 := if IsResponse(m) then v.(inFlight := Remove(v.inFlight, m.id)) else v;
    if m.id.Some? && m.id.value in v.pendingLists && m.hasResult && m.resultIsObject
    then v1.(pendingLists := v.pendingLists - {m.id.value}, stdout := v.stdout + [Out(m.id, Forwarded(Splice(m)))])
    else v1.(stdout := v.stdout + [Out(m.id, Forwarded(m))])
  }

  function Publish(v: Vars, s: Session): Vars {
    v.(sse := s, active := s.generation)
  }

  /** Map.set on the entries in insertion order. */
  method SetEntry(entries: seq<Entry>, e: Entry) returns (r: seq<Entry>)
    ensures r == Put(entries, e)
  {
    var i := 0;
    while i < |entries| && entries[i].msg.id != e.msg.id
      invariant 0 <= i <= |entries|
      invariant Put(entries, e) == entries[..i] + Put(entries[i..], e)
    {
      PutSkips(entries, e, i);
      i := i + 1;
    }
    PutLands(entries, e, i);
    r := entries[..i] + [e] + if i < |entries| then entries[i + 1..] else [];
  }

  /** The loop of adoptCredentials that answers everything in flight with the account-changed error. */
  method AnswerAll(entries: seq<Entry>, written: seq<Out>, lists: set<Id>) returns (stdout: seq<Out>, pendingLists: set<Id>)
    ensures stdout == written + AccountErrors(entries) && pendingLists == lists - IdsOf(entries)
  {
    stdout, pendingLists := written, lists;
    for i := 0 to |entries|
      invariant stdout == written + AccountErrors(entries[..i])
      invariant pendingLists == lists - IdsOf(entries[..i])
    {
      AccountErrorsNext(entries, i);
      stdout := stdout + [Out(entries[i].msg.id, AccountChanged)];
      if entries[i].msg.id.Some? {
        pendingLists := pendingLists - {entries[i].msg.id.value};
      }
    }
    assert entries[..|entries|] == entries;
  }

  /** The variables as the closure holds them. */
  class BridgeVars {
    var creds: Creds
    var generation: nat
    var active: nat
    var sse: Session
    var stdinClosed: bool
    var inFlight: seq<Entry>
    var pendingLists: set<Id>
    var stdout: seq<Out>

    function View(): Vars
      reads this
    {
      Vars(creds, generation, active, sse, stdinClosed, inFlight, pendingLists, stdout)
    }

    /** handleClientLine before its first await, for a message that is not served locally. */
    method AcceptLine(m: Message)
      modifies this
      ensures View() == Accept(old(View()), m)
    {
      if m.method_ == Some("tools/list") && m.id.Some? {
        pendingLists := pendingLists + {m.id.value};
      }
      if m.method_.Some? && m.id.Some? {
        inFlight := SetEntry(inFlight, Entry(m, creds.account));
      }
    }

    /** adoptCredentials before its first await. */
    method AdoptCredentials(next: Creds)
      modifies this
      ensures View() == Adopt(old(View()), next)
    {
      var accountChanged := creds.account != next.account;
      if accountChanged {
        stdout, pendingLists := AnswerAll(inFlight, stdout, pendingLists);
        inFlight := [];
      }
      creds := next;
      generation := generation + 1;
    }

    /**
     * The pump's handling of one message: it is forwarded, with at most its tool list extended; a response ends the
     * request with its id and no other; a list request stays pending until its result has come.
     */
    method DeliverMessage(m: Incoming)
      modifies this
      ensures View() == Deliver(old(View()), m)
      ensures |stdout| == |old(stdout)| + 1 && old(stdout) <= stdout && stdout[|old(stdout)|].id == m.id
      ensures stdout[|old(stdout)|].content.Forwarded? && stdout[|old(stdout)|].content.message.(tools := m.tools) == m
      ensures forall e :: e in inFlight <==> e in old(inFlight) && !((m.hasResult || m.hasError) && m.id.Some? && e.msg.id == m.id)
      ensures (m.hasResult || m.hasError) && m.id.Some? ==> !HasId(inFlight, m.id.value)
      ensures !(m.hasResult || m.hasError) || m.id.None? ==> inFlight == old(inFlight)
      ensures pendingLists <= old(pendingLists)
      ensures forall id | id in old(pendingLists) && id !in pendingLists :: m.id == Some(id) && m.hasResult
      ensures m.id.Some? && m.hasResult && m.resultIsObject ==> m.id.value !in pendingLists
      ensures creds == old(creds) && generation == old(generation) && active == old(active) && sse == old(sse)
      ensures stdinClosed == old(stdinClosed)
    {
      var out := m;
      if IsResponse(m) {
        RemoveMembers(inFlight, m.id);
        inFlight := Remove(inFlight, m.id);
      }
      if m.id.Some? && m.id.value in pendingLists && m.hasResult && m.resultIsObject {
        pendingLists := pendingLists - {m.id.value};
        if m.tools.Some? {
          out := m.(tools := Some(m.tools.value + LOCAL_TOOLS));
        }
      }
      stdout := stdout + [Out(m.id, Forwarded(out))];
    }
  }

  lemma {:induction false} PutSkips(entries: seq<Entry>, e: Entry, i: nat)
    requires i < |entries| && entries[i].msg.id != e.msg.id
    requires Put(entries, e) == entries[..i] + Put(entries[i..], e)
    ensures Put(entries, e) == entries[..i + 1] + Put(entries[i + 1..], e)
  {
  }

  lemma {:induction false} PutLands(entries: seq<Entry>, e: Entry, i: nat)
    requires i <= |entries| && (i < |entries| ==> entries[i].msg.id == e.msg.id)
    requires Put(entries, e) == entries[..i] + Put(entries[i..], e)
    ensures Put(entries, e) == entries[..i] + [e] + if i < |entries| then entries[i + 1..] else []
  {
  }

  lemma {:induction false} AccountErrorsNext(entries: seq<Entry>, i: nat)
    requires i < |entries|
    ensures AccountErrors(entries[..i + 1]) == AccountErrors(entries[..i]) + [Out(entries[i].msg.id, AccountChanged)]
    ensures IdsOf(entries[..i + 1])
            == IdsOf(entries[..i]) + if entries[i].msg.id.Some? then {entries[i].msg.id.value} else {}
  {
    assert entries[..i + 1][..i] == entries[..i];
    assert entries[..i + 1] == entries[..i] + [entries[i]];
  }

  // ---- Facts about the in-flight map ----

  predicate HasId(entries: seq<Entry>, id: Id) {
    exists i :: 0 <= i < |entries| && entries[i].msg.id == Some(id)
  }

  lemma {:induction false} PutMembers(entries: seq<Entry>, e: Entry)
    ensures e in Put(entries, e)
    ensures forall x | x in Put(entries, e) :: x == e || (x in entries && x.msg.id != e.msg.id) || x in entries
    ensures forall x | x in entries && x.msg.id != e.msg.id :: x in Put(entries, e)
  {
    if entries != [] && entries[0].msg.id != e.msg.id {
      PutMembers(entries[1..], e);
    }
  }

  lemma {:induction false} RemoveMembers(entries: seq<Entry>, id: Option<Id>)
    ensures forall x :: x in Remove(entries, id) <==> x in entries && x.msg.id != id
  {
    if entries != [] {
      RemoveMembers(entries[1..], id);
      assert entries == [entries[0]] + entries[1..];
    }
  }

  lemma {:induction false} AccountErrorsCover(entries: seq<Entry>, e: Entry)
    requires e in entries
    ensures Out(e.msg.id, AccountChanged) in AccountErrors(entries)
  {
    var n := |entries| - 1;
    if entries[n] != e {
      AccountErrorsCover(entries[..n], e);
    }
  }

  /** A configured namespace is filled in once and for all, and never over one the caller gave. */
  lemma {:induction false} DefaultNamespaceSettles(m: Message, default_: Option<string>)
    ensures var out := ApplyDefaultNamespace(m, default_);
            && ApplyDefaultNamespace(out, default_) == out
            && out.(namespace := m.namespace) == m
            && (m.namespace.Some? && Trim(m.namespace.value) != "" ==> out == m)
    ensures default_.Some? && default_.value != "" && m.method_ == Some("tools/call") ==>
              m.tool.Some? && m.tool.value in NAMESPACE_TOOLS && (m.namespace.None? || Trim(m.namespace.value) == "") ==>
                ApplyDefaultNamespace(m, default_).namespace == default_
  {
  }
}
