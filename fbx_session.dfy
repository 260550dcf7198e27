/**
 * The FBX exporter's per-export bookkeeping as a value: the identifier
 * table (`_object_ids`, `_next_id`) and the connection registry
 * (`_connections`). The class in FbxExporter keeps these as fields and is
 * proved to follow the functions here.
 */
module FbxSession {
  import opened Basics

  /**
   * First identifier handed out in a session. The documents section, which
   * is not part of this model, writes this same number as the Document's id.
   */
  const IdBase: int := 1000000000

  /** The document root every model is parented to. */
  const RootId: int := 0

  /** `(child_id, parent_id, property)`; a property names a property-level link. */
  datatype Connection = Connection(child: int, parent: int, property: Option<string>)

  datatype Session = Session(nextId: int, objectIds: map<string, int>, connections: seq<Connection>)

  /** The state `export` resets to before writing anything. */
  function Fresh(): Session
  {
    Session(IdBase, map[], [])
  }

  /** An identifier the session has handed out. */
  predicate Allocated(s: Session, id: int)
  {
    IdBase <= id < s.nextId
  }

  /**
   * The session invariant: identifiers come from `[IdBase, nextId)`, one per
   * key, distinct keys never share one, exactly `nextId - IdBase` have been
   * handed out, and every connection links allocated objects (or the root).
   */
  ghost predicate Valid(s: Session)
  {
    && IdBase <= s.nextId
    && (forall k :: k in s.objectIds ==> Allocated(s, s.objectIds[k]))
    && (forall k1, k2 :: k1 in s.objectIds && k2 in s.objectIds && k1 != k2 ==> s.objectIds[k1] != s.objectIds[k2])
    && |s.objectIds| == s.nextId - IdBase
    && (forall c :: c in s.connections ==> Allocated(s, c.child) && (c.parent == RootId || Allocated(s, c.parent)))
  }

  /** `t` is a later state of the same session: no id changed, no connection lost. */
  ghost predicate Extends(s: Session, t: Session)
  {
    && s.nextId <= t.nextId
    && (forall k :: k in s.objectIds ==> k in t.objectIds && t.objectIds[k] == s.objectIds[k])
    && s.connections <= t.connections
  }

  datatype Allocation = Allocation(session: Session, id: int)

  /**
   * `_get_id(name)`: a known key keeps its identifier and leaves the session
   * alone; an unknown key receives `nextId`, which then grows by one.
   */
  function GetId(s: Session, name: string): (a: Allocation)
    ensures name in a.session.objectIds && a.session.objectIds[name] == a.id
    ensures name in s.objectIds ==> a == Allocation(s, s.objectIds[name])
    ensures name !in s.objectIds ==>
      && a.id == s.nextId
      && a.session.nextId == s.nextId + 1
      && a.session.objectIds.Keys == s.objectIds.Keys + {name}
      && a.session.connections == s.connections
    ensures Extends(s, a.session)
  {
    if name in s.objectIds then Allocation(s, s.objectIds[name])
    else Allocation(s.(objectIds := s.objectIds[name := s.nextId], nextId := s.nextId + 1), s.nextId)
  }

  /** `_connections.append((child, parent, property))`. */
  function Connect(s: Session, child: int, parent: int, property: Option<string>): (t: Session)
    ensures t.connections == s.connections + [Connection(child, parent, property)]
    ensures t.nextId == s.nextId && t.objectIds == s.objectIds
    ensures Extends(s, t)
  {
    s.(connections := s.connections + [Connection(child, parent, property)])
  }

  lemma ExtendsTransitive(s: Session, t: Session, u: Session)
    requires Extends(s, t) && Extends(t, u)
    ensures Extends(s, u)
  {
  }

  lemma FreshValid()
    ensures Valid(Fresh())
  {
  }

  /** The first identifier of every session is `1000000000`, and none is ever the root's `0`. */
  lemma FirstIdentifier(name: string, s: Session, k: string)
    requires Valid(s) && k in s.objectIds
    ensures GetId(Fresh(), name).id == IdBase
    ensures s.objectIds[k] != RootId
  {
  }

  /** Allocation keeps the session invariant. */
  lemma GetIdValid(s: Session, name: string)
    requires Valid(s)
    ensures Valid(GetId(s, name).session)
  {
    if name !in s.objectIds {
      var t := GetId(s, name).session;
      assert t.objectIds == s.objectIds[name := s.nextId];
      assert |t.objectIds| == |s.objectIds| + 1;
      forall k1, k2 | k1 in t.objectIds && k2 in t.objectIds && k1 != k2
        ensures t.objectIds[k1] != t.objectIds[k2]
      {
        if k1 == name {
          assert t.objectIds[k2] == s.objectIds[k2];
        } else if k2 == name {
          assert t.objectIds[k1] == s.objectIds[k1];
        }
      }
    }
  }

  /** A link between allocated objects (or to the root) keeps the invariant. */
  lemma ConnectValid(s: Session, child: int, parent: int, property: Option<string>)
    requires Valid(s) && Allocated(s, child) && (parent == RootId || Allocated(s, parent))
    ensures Valid(Connect(s, child, parent, property))
  {
  }

  /**
   * Within a session the same key always gets the same identifier, however
   * many other keys were allocated in between, and two distinct keys never
   * get the same one.
   */
  lemma IdentifiersStable(s: Session, k1: string, k2: string)
    requires Valid(s)
    ensures var a1 := GetId(s, k1);
      var a2 := GetId(a1.session, k2);
      && GetId(a2.session, k1).id == a1.id
      && GetId(a2.session, k1).session == a2.session
      && (k1 != k2 <==> a1.id != a2.id)
  {
    GetIdValid(s, k1);
    GetIdValid(GetId(s, k1).session, k2);
  }
}
