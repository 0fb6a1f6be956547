/** The entity registry (entity/Entity.cpp): entities keyed by uuid,
    factories keyed by class name, and each entity's set of components
    with the message broadcast between them.

    Pointers are Dafny references: `Entity?`, `Component` and `Factory?`.
    A factory's `create` and a component's `receiveMessage` are virtual
    calls into code outside this model; `create`'s result and the uuid the
    random generator would draw are parameters, and a broadcast returns
    the components it delivers to. */
module Entities {
  import opened Wrappers

  /** A boost uuid: 128 bits. */
  type Uuid = x: nat | x < 0x1_0000_0000_0000_0000_0000_0000_0000_0000

  /** `std::unordered_map::insert`: a key already present keeps its
      value. */
  function Insert<K, V>(m: map<K, V>, k: K, v: V): map<K, V>
  {
    if k in m then m else m[k := v]
  }

  /** `insert` adds exactly the key, never replaces the value of a key
      already present, and leaves every other entry alone. */
  lemma InsertKeepsFirst<K, V>(m: map<K, V>, k: K, v: V)
    ensures Insert(m, k, v).Keys == m.Keys + {k}
    ensures Insert(m, k, v)[k] == if k in m then m[k] else v
    ensures forall j :: j in m && j != k ==> Insert(m, k, v)[j] == m[j]
  {
  }

  /** `findEntity`'s lookup (lines 65-72): the registered entity, or
      null. */
  function Find(entities: map<Uuid, Entity>, id: Uuid): Entity?
  {
    if id in entities then entities[id] else null
  }

  /** After `destroyEntity(id)` the id is no longer found, and every other
      id finds what it found before. */
  lemma FindAfterErase(entities: map<Uuid, Entity>, id: Uuid, other: Uuid)
    ensures Find(entities - {id}, id) == null
    ensures other != id ==> Find(entities - {id}, other) == Find(entities, other)
  {
  }

  /** After registering `e` under `id`, `findEntity(id)` returns `e`
      unless another entity already held the id, which it keeps. */
  lemma FindAfterInsert(entities: map<Uuid, Entity>, id: Uuid, e: Entity, other: Uuid)
    ensures Find(Insert(entities, id, e), id) == if id in entities then entities[id] else e
    ensures other != id ==> Find(Insert(entities, id, e), other) == Find(entities, other)
  {
  }

  /** The uuid a new entity gets: the caller's, or a freshly generated
      one (lines 44-47). */
  function ChosenUuid(given: Option<Uuid>, generated: Uuid): (id: Uuid)
    ensures given.Some? ==> id == given.value
    ensures given.None? ==> id == generated
  {
    if given.Some? then given.value else generated
  }

  /** `Entity`: its class name, name, uuid and component set. */
  class Entity {
    var kind: string
    var name: string
    var uuid: Uuid
    var components: set<Component>

    /** Every component in the set is owned by this entity. */
    predicate Valid()
      reads this, components
    {
      forall c :: c in components ==> c.owner == this
    }

    /** A factory's fresh entity, before any component is attached. */
    constructor ()
      ensures Valid() && components == {} && kind == "" && name == ""
    {
      kind, name, uuid, components := "", "", 0, {};
    }
  }

  /** `Component`: a part of one entity. */
  class Component {
    const owner: Entity

    /** `Component(owner)` (lines 18-22): joins its owner's component
        set. */
    constructor (owner: Entity)
      requires owner.Valid()
      modifies owner`components
      ensures this.owner == owner && owner.components == old(owner.components) + {this} && owner.Valid()
    {
      this.owner := owner;
      new;
      owner.components := owner.components + {this};
    }

    /** `~Component` (lines 24-27): leaves its owner's component set. The
        set must hold it, since erasing `end()` is undefined. */
    method Destroy()
      requires this in owner.components && owner.Valid()
      modifies owner`components
      ensures owner.components == old(owner.components) - {this} && owner.Valid()
    {
      owner.components := owner.components - {this};
    }

    /** `sendMessage` (lines 29-34): the components that receive the
        message, in the order it reaches them. Every other component of
        the owner receives it exactly once; the sender never does. */
    method SendMessage() returns (receivers: seq<Component>)
      ensures forall c :: c in receivers <==> c in owner.components && c != this
      ensures forall i, j :: 0 <= i < j < |receivers| ==> receivers[i] != receivers[j]
    {
      var rest := owner.components;
      receivers := [];
      while rest != {}
        invariant rest <= owner.components
        invariant forall c :: c in receivers <==> c in owner.components && c !in rest && c != this
        invariant forall i, j :: 0 <= i < j < |receivers| ==> receivers[i] != receivers[j]
        decreases |rest|
      {
        var c :| c in rest;
        if c != this {
          receivers := receivers + [c];
        }
        rest := rest - {c};
      }
    }
  }

  /** An `EntityFactory`; its `create` is an oracle. */
  class Factory {
  }

  /** `EntityManager`: the entity and factory registries. */
  class EntityManager {
    var entities: map<Uuid, Entity>
    var factories: map<string, Factory?>

    constructor ()
      ensures entities == map[] && factories == map[]
    {
      entities, factories := map[], map[];
    }

    /** `createEntity` (lines 39-51). `made` is what the class name's
        factory creates. A created entity gets the class name and the
        chosen uuid and is registered with `insert`, so an id already
        registered keeps its older entity; when the factory returns null
        nothing is registered and null is returned. `m_factories[classname]`
        is dereferenced, so the class name must have a non-null factory. */
    method CreateEntity(classname: string, given: Option<Uuid>, made: Entity?, generated: Uuid) returns (e: Entity?)
      requires classname in factories && factories[classname] != null
      modifies this`entities, made
      ensures e == made
      ensures made == null ==> entities == old(entities)
      ensures made != null ==>
        made.kind == classname && made.uuid == ChosenUuid(given, generated) &&
        made.name == old(made.name) && made.components == old(made.components) &&
        entities == Insert(old(entities), made.uuid, made)
    {
      e := made;
      if e != null {
        e.kind := classname;
        if given.Some? {
          e.uuid := given.value;
        } else {
          e.uuid := generated;
        }
        entities := Insert(entities, e.uuid, e);
      }
    }

    /** `destroyEntity` (lines 53-63): an unknown id changes nothing; a
        registered entity is unregistered and each of its components
        destroyed, which empties its component set. */
    method DestroyEntity(id: Uuid)
      requires id in entities ==> entities[id].Valid()
      modifies this`entities, if id in entities then {entities[id]} else {}
      ensures entities == old(entities) - {id}
      ensures id in old(entities) ==> old(entities)[id].components == {}
    {
      if id in entities {
        var e: Entity := entities[id];
        entities := entities - {id};
        while e.components != {}
          invariant e.Valid()
          invariant entities == old(entities) - {id}
          modifies e`components
          decreases |e.components|
        {
          var c :| c in e.components;
          c.Destroy();
        }
      }
    }

    /** `findEntity` (lines 65-72). */
    method FindEntity(id: Uuid) returns (e: Entity?)
      ensures e != null <==> id in entities
      ensures e != null ==> e == entities[id]
    {
      if id in entities {
        e := entities[id];
      } else {
        e := null;
      }
    }

    /** `addFactory` (lines 74-77): registers with `insert`, so the first
        factory given for a class name is the one kept. */
    method AddFactory(classname: string, fact: Factory?)
      modifies this`factories
      ensures factories == Insert(old(factories), classname, fact)
    {
      factories := Insert(factories, classname, fact);
    }
  }
}
