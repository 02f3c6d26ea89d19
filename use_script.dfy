/**
 * `useScript`: loads an external script by inserting a `<script>` element into
 * the document, tracks a four-valued status, and invokes the latest `onLoad` /
 * `onError` callback when the element reports its load or error event.
 *
 * React is abstracted away: a `ScriptLoader` is one hook instance; its
 * constructor is the first render, `UpdateCallbacks` the effect that refreshes
 * the callback ref, `Mount` the loading effect, `HandleEvent` the delivery of a
 * DOM event to an element, and `Teardown` the effect's cleanup.
 */
module UseScript {
  import opened Common

  datatype Status = Idle | Loading | Ready | Error

  /**
   * A `<script>` element of the document: an identity, its `src` property, its
   * `src` attribute (absent when never set), its legacy `readyState` (absent in
   * modern browsers) and its `async` flag.
   */
  datatype Script = Script(id: nat, src: string, srcAttribute: Option<string>, readyState: Option<string>, async: bool)

  /** The lookup test of the hook: the `src` property or the `src` attribute equals the URL. */
  predicate Matches(s: Script, url: string)
  {
    s.src == url || s.srcAttribute == Some(url)
  }

  /** `Array.prototype.find` over the document's scripts: the index of the first match. */
  function Find(scripts: seq<Script>, url: string): (r: Option<nat>)
    ensures r.Some? ==> r.value < |scripts| && Matches(scripts[r.value], url)
    ensures r.Some? ==> forall j :: 0 <= j < r.value ==> !Matches(scripts[j], url)
    ensures r.None? <==> forall j :: 0 <= j < |scripts| ==> !Matches(scripts[j], url)
  {
    if scripts == [] then None
    else if Matches(scripts[0], url) then Some(0)
    else match Find(scripts[1..], url)
      case None => None
      case Some(k) => Some(k + 1)
  }

  /** The status an existing element gives: `ready` for `complete` or `loaded`, otherwise `loading`. */
  function StatusOf(readyState: Option<string>): (s: Status)
    ensures s == Ready || s == Loading
    ensures s == Ready <==> readyState == Some("complete") || readyState == Some("loaded")
  {
    if readyState == Some("complete") || readyState == Some("loaded") then Ready else Loading
  }

  /** The number of the document's scripts that the lookup would match for `url`. */
  function Count(scripts: seq<Script>, url: string): (n: nat)
  {
    if scripts == [] then 0
    else (if Matches(scripts[0], url) then 1 else 0) + Count(scripts[1..], url)
  }

  /** Appending one element adds one to the count exactly when it matches. */
  lemma {:induction false} CountAppend(scripts: seq<Script>, s: Script, url: string)
    ensures Count(scripts + [s], url) == Count(scripts, url) + (if Matches(s, url) then 1 else 0)
  {
    if scripts != [] {
      assert (scripts + [s])[1..] == scripts[1..] + [s];
      CountAppend(scripts[1..], s, url);
    }
  }

  /** The lookup finds nothing exactly when no script matches. */
  lemma {:induction false} FindNoneIffCountZero(scripts: seq<Script>, url: string)
    ensures Find(scripts, url).None? <==> Count(scripts, url) == 0
  {
    if scripts != [] {
      FindNoneIffCountZero(scripts[1..], url);
    }
  }

  /** The registry invariant the loader keeps: no URL is matched by more than one element. */
  ghost predicate AtMostOnePerUrl(scripts: seq<Script>)
  {
    forall u :: Count(scripts, u) <= 1
  }

  /** Appending an element that matches only `url`, while nothing matches `url` yet, keeps the invariant. */
  lemma AppendFreshKeepsAtMostOnePerUrl(scripts: seq<Script>, s: Script, url: string)
    requires AtMostOnePerUrl(scripts) && Count(scripts, url) == 0
    requires s.src == url && s.srcAttribute == Some(url)
    ensures AtMostOnePerUrl(scripts + [s])
  {
    forall u ensures Count(scripts + [s], u) <= 1 {
      CountAppend(scripts, s, u);
    }
  }

  ghost predicate UniqueIds(scripts: seq<Script>)
  {
    forall i, j :: 0 <= i < j < |scripts| ==> scripts[i].id != scripts[j].id
  }

  predicate Attached(scripts: seq<Script>, id: nat)
  {
    exists k :: 0 <= k < |scripts| && scripts[k].id == id
  }

  /** The document's scripts after `removeChild` of the element with identity `id`. */
  function RemoveId(scripts: seq<Script>, id: nat): (r: seq<Script>)
    ensures |r| <= |scripts|
  {
    if scripts == [] then []
    else if scripts[0].id == id then RemoveId(scripts[1..], id)
    else [scripts[0]] + RemoveId(scripts[1..], id)
  }

  /** Removal keeps exactly the elements with another identity. */
  lemma {:induction false} RemoveIdMembers(scripts: seq<Script>, id: nat)
    ensures forall s :: s in RemoveId(scripts, id) <==> s in scripts && s.id != id
  {
    if scripts != [] {
      RemoveIdMembers(scripts[1..], id);
      assert forall s :: s in scripts <==> s == scripts[0] || s in scripts[1..];
    }
  }

  /** Removing an element that is not attached changes nothing. */
  lemma {:induction false} RemoveIdAbsent(scripts: seq<Script>, id: nat)
    requires !Attached(scripts, id)
    ensures RemoveId(scripts, id) == scripts
  {
    if scripts != [] {
      assert !Attached(scripts[1..], id) by {
        forall j | 0 <= j < |scripts[1..]| ensures scripts[1..][j].id != id {
          assert scripts[1..][j] == scripts[j + 1];
        }
      }
      RemoveIdAbsent(scripts[1..], id);
    }
  }

  /** Removal keeps identities unique. */
  lemma {:induction false} RemoveIdUnique(scripts: seq<Script>, id: nat)
    requires UniqueIds(scripts)
    ensures UniqueIds(RemoveId(scripts, id))
  {
    if scripts != [] {
      var rest := scripts[1..];
      assert UniqueIds(rest) by {
        forall i, j | 0 <= i < j < |rest| ensures rest[i].id != rest[j].id {
          assert rest[i] == scripts[i + 1] && rest[j] == scripts[j + 1];
        }
      }
      RemoveIdUnique(rest, id);
      if scripts[0].id != id {
        var r := RemoveId(rest, id);
        RemoveIdMembers(rest, id);
        forall j | 0 <= j < |r| ensures r[j].id != scripts[0].id {
          assert r[j] in rest;
          var k :| 0 <= k < |rest| && rest[k] == r[j];
          assert scripts[k + 1] == r[j];
        }
        var full := [scripts[0]] + r;
        forall i, j | 0 <= i < j < |full| ensures full[i].id != full[j].id {
          if i > 0 {
            assert full[i] == r[i - 1] && full[j] == r[j - 1];
          } else {
            assert full[j] == r[j - 1];
          }
        }
      }
    }
  }

  /** Removal never raises the number of matches for any URL. */
  lemma {:induction false} CountRemoveId(scripts: seq<Script>, id: nat, url: string)
    ensures Count(RemoveId(scripts, id), url) <= Count(scripts, url)
  {
    if scripts != [] {
      CountRemoveId(scripts[1..], id, url);
      if scripts[0].id != id {
        assert ([scripts[0]] + RemoveId(scripts[1..], id))[1..] == RemoveId(scripts[1..], id);
      }
    }
  }

  /** Removal keeps the registry invariant. */
  lemma RemoveIdKeepsAtMostOnePerUrl(scripts: seq<Script>, id: nat)
    requires AtMostOnePerUrl(scripts)
    ensures AtMostOnePerUrl(RemoveId(scripts, id))
  {
    forall u ensures Count(RemoveId(scripts, id), u) <= 1 {
      CountRemoveId(scripts, id, u);
    }
  }

  /** With identities unique, removal takes out exactly the one element and keeps the order of the rest. */
  lemma {:induction false} RemoveIdAt(scripts: seq<Script>, k: nat)
    requires UniqueIds(scripts) && k < |scripts|
    ensures RemoveId(scripts, scripts[k].id) == scripts[..k] + scripts[k + 1..]
  {
    var id := scripts[k].id;
    var rest := scripts[1..];
    assert UniqueIds(rest) by {
      forall i, j | 0 <= i < j < |rest| ensures rest[i].id != rest[j].id {
        assert rest[i] == scripts[i + 1] && rest[j] == scripts[j + 1];
      }
    }
    if k == 0 {
      assert !Attached(rest, id) by {
        forall j | 0 <= j < |rest| ensures rest[j].id != id {
          assert rest[j] == scripts[j + 1];
        }
      }
      RemoveIdAbsent(rest, id);
      assert RemoveId(scripts, id) == RemoveId(rest, id);
    } else {
      assert scripts[0].id != id;
      assert RemoveId(scripts, id) == [scripts[0]] + RemoveId(rest, id);
      assert rest[k - 1] == scripts[k];
      RemoveIdAt(rest, k - 1);
      assert rest[..k - 1] == scripts[1..k];
      assert rest[k..] == scripts[k + 1..];
      assert scripts[..k] == [scripts[0]] + scripts[1..k];
    }
  }

  /** The part of the document the hook reads and mutates: its script elements, in document order. */
  class Document {
    var scripts: seq<Script>
    var nextId: nat

    ghost predicate Valid()
      reads this
    {
      && UniqueIds(scripts)
      && forall k :: 0 <= k < |scripts| ==> scripts[k].id < nextId
    }

    constructor ()
      ensures Valid() && scripts == []
    {
      scripts := [];
      nextId := 0;
    }

    /** Creates an element with the given attributes and appends it to the body, which ends the document order. */
    method AppendChild(src: string, srcAttribute: Option<string>, readyState: Option<string>, async: bool) returns (id: nat)
      requires Valid()
      modifies this
      ensures Valid()
      ensures id == old(nextId) && nextId > id
      ensures scripts == old(scripts) + [Script(id, src, srcAttribute, readyState, async)]
    {
      id := nextId;
      scripts := scripts + [Script(id, src, srcAttribute, readyState, async)];
      nextId := nextId + 1;
    }

    method RemoveChild(id: nat)
      requires Valid()
      modifies this`scripts
      ensures Valid()
      ensures scripts == RemoveId(old(scripts), id)
    {
      RemoveIdMembers(scripts, id);
      RemoveIdUnique(scripts, id);
      scripts := RemoveId(scripts, id);
    }
  }

  /** Callbacks as opaque identities: the model records which one was invoked. */
  type Callback = nat

  /** `callbacksRef.current`. */
  datatype Callbacks = Callbacks(onLoad: Option<Callback>, onError: Option<Callback>)

  datatype ScriptEvent = Load | Failure

  /** One `useScript(url, options)` instance. */
  class ScriptLoader {
    const url: string
    const removeOnUnmount: bool
    const doc: Document
    var status: Status
    var callbacks: Callbacks
    /** The element this instance created and listens on; `None` before mounting, after reuse and after teardown. */
    var listeningOn: Option<nat>
    var effectRan: bool
    /** The callbacks invoked so far, in order. */
    var invoked: seq<Callback>

    /** The first render: status `idle`, callbacks captured, `removeOnUnmount` defaulting to true. */
    constructor (url: string, doc: Document, onLoad: Option<Callback> := None, onError: Option<Callback> := None,
                 removeOnUnmount: bool := true)
      ensures this.url == url && this.doc == doc && this.removeOnUnmount == removeOnUnmount
      ensures status == Idle && callbacks == Callbacks(onLoad, onError)
      ensures listeningOn == None && !effectRan && invoked == []
    {
      this.url := url;
      this.doc := doc;
      this.removeOnUnmount := removeOnUnmount;
      status := Idle;
      callbacks := Callbacks(onLoad, onError);
      listeningOn := None;
      effectRan := false;
      invoked := [];
    }

    /** A re-render with new callbacks: the ref is overwritten, no listener is re-attached. */
    method UpdateCallbacks(onLoad: Option<Callback>, onError: Option<Callback>)
      modifies this`callbacks
      ensures callbacks == Callbacks(onLoad, onError)
    {
      callbacks := Callbacks(onLoad, onError);
    }

    /** The loading effect: reuse a matching element, or create, listen on and append a new one. */
    method Mount()
      requires doc.Valid() && !effectRan && listeningOn == None
      modifies this`status, this`listeningOn, this`effectRan, doc
      ensures doc.Valid() && effectRan
      ensures Count(doc.scripts, url) == if old(Count(doc.scripts, url)) == 0 then 1 else old(Count(doc.scripts, url))
      ensures forall u :: u != url ==> Count(doc.scripts, u) == old(Count(doc.scripts, u))
      ensures old(AtMostOnePerUrl(doc.scripts)) ==> AtMostOnePerUrl(doc.scripts)
      ensures match old(Find(doc.scripts, url))
        case Some(k) =>
          && doc.scripts == old(doc.scripts) && doc.nextId == old(doc.nextId)
          && status == StatusOf(old(doc.scripts[k].readyState))
          && listeningOn == None
        case None =>
          && doc.scripts == old(doc.scripts) + [Script(old(doc.nextId), url, Some(url), None, true)]
          && status == Loading
          && listeningOn == Some(old(doc.nextId))
    {
      effectRan := true;
      FindNoneIffCountZero(doc.scripts, url);
      var existing := Find(doc.scripts, url);
      if existing.Some? {
        status := StatusOf(doc.scripts[existing.value].readyState);
        return;
      }
      status := Loading;
      var script := Script(doc.nextId, url, Some(url), None, true);
      forall u {
        CountAppend(doc.scripts, script, u);
      }
      if AtMostOnePerUrl(doc.scripts) {
        AppendFreshKeepsAtMostOnePerUrl(doc.scripts, script, url);
      }
      var id := doc.AppendChild(url, Some(url), None, true);
      listeningOn := Some(id);
    }

    /** A load or error event dispatched on element `target`; only the element listened on reacts. */
    method HandleEvent(target: nat, event: ScriptEvent)
      modifies this`status, this`invoked
      ensures listeningOn != Some(target) ==> status == old(status) && invoked == old(invoked)
      ensures listeningOn == Some(target) && event == Load ==>
        status == Ready && invoked == old(invoked) + (if callbacks.onLoad.Some? then [callbacks.onLoad.value] else [])
      ensures listeningOn == Some(target) && event == Failure ==>
        status == Error && invoked == old(invoked) + (if callbacks.onError.Some? then [callbacks.onError.value] else [])
    {
      if listeningOn != Some(target) {
        return;
      }
      match event
      case Load =>
        status := Ready;
        if callbacks.onLoad.Some? {
          invoked := invoked + [callbacks.onLoad.value];
        }
      case Failure =>
        status := Error;
        if callbacks.onError.Some? {
          invoked := invoked + [callbacks.onError.value];
        }
    }

    /** The effect's cleanup: detach both listeners, and remove the element if asked to and still attached. */
    method Teardown()
      requires doc.Valid()
      modifies this`listeningOn, doc`scripts
      ensures doc.Valid() && listeningOn == None
      ensures match old(listeningOn)
        case Some(id) =>
          doc.scripts == if removeOnUnmount && Attached(old(doc.scripts), id) then RemoveId(old(doc.scripts), id) else old(doc.scripts)
        case None => doc.scripts == old(doc.scripts)
      ensures forall u :: Count(doc.scripts, u) <= old(Count(doc.scripts, u))
      ensures old(AtMostOnePerUrl(doc.scripts)) ==> AtMostOnePerUrl(doc.scripts)
    {
      if listeningOn.Some? {
        var id := listeningOn.value;
        listeningOn := None;
        if removeOnUnmount && Attached(doc.scripts, id) {
          forall u {
            CountRemoveId(doc.scripts, id, u);
          }
          if AtMostOnePerUrl(doc.scripts) {
            RemoveIdKeepsAtMostOnePerUrl(doc.scripts, id);
          }
          doc.RemoveChild(id);
        }
      }
    }
  }

  /** A URL the document has never seen: `loading` after mounting, one new async element, then `ready` and `onLoad` once. */
  method LoadFreshUrl(url: string, onLoad: Callback, onError: Callback)
    returns (afterMount: Status, entries: seq<Script>, afterLoad: Status, calls: seq<Callback>)
    ensures afterMount == Loading
    ensures |entries| == 1 && entries[0].src == url && entries[0].async
    ensures afterLoad == Ready && calls == [onLoad]
  {
    var doc := new Document();
    var loader := new ScriptLoader(url, doc, Some(onLoad), Some(onError));
    loader.Mount();
    afterMount := loader.status;
    entries := doc.scripts;
    loader.HandleEvent(entries[0].id, Load);
    afterLoad := loader.status;
    calls := loader.invoked;
  }

  /** An error event gives `error` and invokes the callback supplied by the latest render. */
  method FailWithLatestCallback(url: string, first: Callback, latest: Callback) returns (afterError: Status, calls: seq<Callback>)
    ensures afterError == Error && calls == [latest]
  {
    var doc := new Document();
    var loader := new ScriptLoader(url, doc, None, Some(first));
    loader.Mount();
    var id := doc.scripts[0].id;
    loader.UpdateCallbacks(None, Some(latest));
    loader.HandleEvent(id, Failure);
    afterError := loader.status;
    calls := loader.invoked;
  }

  /** A completed element already present: `ready` at once, nothing appended, and events change nothing. */
  method ReuseCompletedScript(url: string, onLoad: Callback) returns (afterMount: Status, entries: nat, afterEvent: Status, calls: seq<Callback>)
    ensures afterMount == Ready && entries == 1
    ensures afterEvent == Ready && calls == []
  {
    var doc := new Document();
    var existing := doc.AppendChild(url, Some(url), Some("complete"), false);
    var loader := new ScriptLoader(url, doc, Some(onLoad));
    loader.Mount();
    afterMount := loader.status;
    entries := |doc.scripts|;
    loader.HandleEvent(existing, Failure);
    afterEvent := loader.status;
    calls := loader.invoked;
  }

  /**
   * Two instances for one URL before it resolves: one element, and the second instance is `loading` too.
   * The second attaches no listener, so when the element loads only the first becomes `ready`.
   */
  method SameUrlTwice(url: string) returns (entries: nat, first: Status, second: Status, firstLoaded: Status, secondLoaded: Status)
    ensures entries == 1 && first == Loading && second == Loading
    ensures firstLoaded == Ready && secondLoaded == Loading
  {
    var doc := new Document();
    var a := new ScriptLoader(url, doc);
    a.Mount();
    var b := new ScriptLoader(url, doc);
    b.Mount();
    entries := |doc.scripts|;
    first, second := a.status, b.status;
    var id := doc.scripts[0].id;
    a.HandleEvent(id, Load);
    b.HandleEvent(id, Load);
    firstLoaded, secondLoaded := a.status, b.status;
  }

  /** Teardown removes the element by default, and keeps it with `removeOnUnmount: false` for a later instance to reuse. */
  method TeardownKeepsOrRemoves(url: string, keep: bool) returns (afterTeardown: nat, reusedStatus: Status, afterReuse: nat)
    ensures afterTeardown == if keep then 1 else 0
    ensures reusedStatus == Loading
    ensures afterReuse == 1
  {
    var doc := new Document();
    var a := new ScriptLoader(url, doc, removeOnUnmount := !keep);
    a.Mount();
    a.Teardown();
    afterTeardown := |doc.scripts|;
    var b := new ScriptLoader(url, doc);
    b.Mount();
    reusedStatus := b.status;
    afterReuse := |doc.scripts|;
  }
}
