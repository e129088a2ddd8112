/** The kernel's name server (Main.DefaultNameServer) and the registration
    handle it hands out (DefaultNameRegistration). A name maps to a bucket of
    instances kept in registration order. */
module Naming {
  import opened Lang

  /** The name server's state: name to bucket, oldest registration first. */
  type Registry = map<string, seq<Obj>>

  /** `s.trim().isEmpty()`: String.trim strips every character up to U+0020
      from both ends, so the string trims to "" exactly when all of its
      characters are at most U+0020. */
  predicate Blank(s: string)
  {
    forall i :: 0 <= i < |s| ==> s[i] <= ' '
  }

  /** The checkArgument guards on a name: not null and not blank. */
  predicate ValidName(name: Option<string>)
  {
    name.Some? && !Blank(name.value)
  }

  /** Every key of a registry was accepted by register. */
  predicate WellFormed(reg: Registry)
  {
    forall n :: n in reg ==> !Blank(n)
  }

  /** The bucket register appends to: the existing one, or a new empty one. */
  function Bucket(reg: Registry, name: string): seq<Obj>
  {
    if name in reg then reg[name] else []
  }

  /** The exact (name, instance) pair is currently registered. */
  predicate Bound(reg: Registry, name: Option<string>, instance: Obj?)
  {
    ValidName(name) && name.value in reg && instance in reg[name.value]
  }

  /** lookupAll(name): the bucket in registration order, or a NamingException
      for a null or blank name, a name without bucket, or an empty bucket. */
  function LookupAll(reg: Registry, name: Option<string>): (r: Outcome<seq<Obj>>)
    ensures r.Returned? <==> ValidName(name) && name.value in reg && reg[name.value] != []
    ensures r.Returned? ==> r.value == reg[name.value]
    ensures !ValidName(name) ==> r == Raised(NamingException(InvalidArgument))
    ensures ValidName(name) && name.value !in reg ==> r == Raised(NamingException(NameNotFound))
    ensures ValidName(name) && name.value in reg && reg[name.value] == [] ==>
              r == Raised(NamingException(NoRegistration))
  {
    if !ValidName(name) then Raised(NamingException(InvalidArgument))
    else if name.value !in reg then Raised(NamingException(NameNotFound))
    else if reg[name.value] == [] then Raised(NamingException(NoRegistration))
    else Returned(reg[name.value])
  }

  /** lookup1(name): the first element lookupAll yields, that is the earliest
      registered instance still present; it fails exactly when lookupAll does. */
  function Lookup1(reg: Registry, name: Option<string>): (r: Outcome<Obj>)
    ensures r.Returned? <==> LookupAll(reg, name).Returned?
    ensures r.Returned? ==> r.value == reg[name.value][0]
    ensures r.Raised? ==> r.exception == LookupAll(reg, name).exception
  {
    match LookupAll(reg, name)
    case Returned(instances) => Returned(instances[0])
    case Raised(e) => Raised(e)
  }

  /** lookup1(name, typ): a null type is an invalid argument; otherwise the
      first instance if it is of type typ, and a type mismatch if it is not. */
  function Lookup1Typed(reg: Registry, name: Option<string>, typ: Option<TypeName>): (r: Outcome<Obj>)
    ensures typ.None? ==> r == Raised(NamingException(InvalidArgument))
    ensures typ.Some? && Lookup1(reg, name).Raised? ==> r == Lookup1(reg, name)
    ensures typ.Some? && Lookup1(reg, name).Returned? ==>
              if HasType(Lookup1(reg, name).value, typ.value) then r == Lookup1(reg, name)
              else r == Raised(NamingException(TypeMismatch))
  {
    if typ.None? then Raised(NamingException(InvalidArgument))
    else match Lookup1(reg, name)
      case Raised(e) => Raised(e)
      case Returned(inst) =>
        if HasType(inst, typ.value) then Returned(inst) else Raised(NamingException(TypeMismatch))
  }

  /** register(name, instance) on a registry: append the instance to the end of
      the name's bucket, creating the bucket if needed. */
  function Registered(reg: Registry, name: Option<string>, instance: Obj?): (r: Outcome<Registry>)
    ensures r.Raised? <==> !ValidName(name) || instance == null
    ensures r.Raised? ==> r.exception == NamingException(InvalidArgument)
  {
    if !ValidName(name) || instance == null then Raised(NamingException(InvalidArgument))
    else Returned(reg[name.value := Bucket(reg, name.value) + [instance]])
  }

  /** A successful register adds the name if it was new, appends the instance
      to the end of its bucket and leaves every other name alone. */
  lemma RegisteredAppends(reg: Registry, name: Option<string>, instance: Obj?)
    ensures var r := Registered(reg, name, instance);
      r.Returned? ==>
        && r.value.Keys == reg.Keys + {name.value}
        && r.value[name.value] == Bucket(reg, name.value) + [instance]
        && forall n :: n in reg && n != name.value ==> r.value[n] == reg[n]
  {
  }

  /** Queue.remove(x): drop the first occurrence of x, if any. */
  function RemoveFirst(s: seq<Obj>, x: Obj): (r: seq<Obj>)
    ensures x in s ==> |r| == |s| - 1
    ensures x !in s ==> r == s
  {
    if s == [] then []
    else
      assert s == [s[0]] + s[1..];
      if s[0] == x then s[1..]
      else [s[0]] + RemoveFirst(s[1..], x)
  }

  /** unRegister(name, instance) on a registry: remove one occurrence of the
      instance from the name's bucket. The name keeps its bucket even when it
      becomes empty. */
  function Unregistered(reg: Registry, name: Option<string>, instance: Obj?): (r: Outcome<Registry>)
    ensures r.Returned? <==> ValidName(name) && instance != null && name.value in reg && instance in reg[name.value]
    ensures !ValidName(name) || instance == null ==> r == Raised(NamingException(InvalidArgument))
    ensures ValidName(name) && instance != null && name.value !in reg ==>
              r == Raised(NamingException(NameNotFound))
    ensures ValidName(name) && instance != null && name.value in reg && instance !in reg[name.value] ==>
              r == Raised(NamingException(NotRegistered))
  {
    if !ValidName(name) || instance == null then Raised(NamingException(InvalidArgument))
    else if name.value !in reg then Raised(NamingException(NameNotFound))
    else if instance !in reg[name.value] then Raised(NamingException(NotRegistered))
    else Returned(reg[name.value := RemoveFirst(reg[name.value], instance)])
  }

  /** A successful unRegister keeps every name, takes exactly one occurrence
      of the instance out of its bucket and leaves every other name alone. */
  lemma UnregisteredRemovesOne(reg: Registry, name: Option<string>, instance: Obj?)
    ensures var r := Unregistered(reg, name, instance);
      r.Returned? ==>
        && r.value.Keys == reg.Keys
        && multiset(r.value[name.value]) == multiset(reg[name.value]) - multiset{instance}
        && forall n :: n in reg && n != name.value ==> r.value[n] == reg[n]
  {
    if Unregistered(reg, name, instance).Returned? {
      RemoveFirstRemovesOne(reg[name.value], instance);
    }
  }

  /** RemoveFirst takes out exactly one occurrence of a present element. */
  lemma {:induction false} RemoveFirstRemovesOne(s: seq<Obj>, x: Obj)
    requires x in s
    ensures multiset(RemoveFirst(s, x)) == multiset(s) - multiset{x}
  {
    assert s == [s[0]] + s[1..];
    if s[0] != x {
      RemoveFirstRemovesOne(s[1..], x);
    }
  }

  /** RemoveFirst takes out the earliest occurrence and keeps the order of the
      rest. */
  lemma {:induction false} RemoveFirstIsEarliest(s: seq<Obj>, x: Obj, i: nat)
    requires i < |s| && s[i] == x
    requires forall j :: 0 <= j < i ==> s[j] != x
    ensures RemoveFirst(s, x) == s[..i] + s[i + 1..]
  {
    if i == 0 {
      assert s[..0] + s[1..] == s[1..];
    } else {
      var t := s[1..];
      assert RemoveFirst(s, x) == [s[0]] + RemoveFirst(t, x);
      RemoveFirstIsEarliest(t, x, i - 1);
      assert t[..i - 1] == s[1..i];
      assert t[i..] == s[i + 1..];
      assert s[..i] == [s[0]] + s[1..i];
    }
  }

  /** After a successful register, lookupAll yields the old bucket followed by
      the new instance, lookup1 still yields the earliest one, the pair is
      registered, and every other name looks up as before. */
  lemma RegisterThenLookup(reg: Registry, name: string, instance: Obj, other: Option<string>)
    requires !Blank(name)
    ensures Registered(reg, Some(name), instance).Returned?
    ensures var after := Registered(reg, Some(name), instance).value;
      && LookupAll(after, Some(name)) == Returned(Bucket(reg, name) + [instance])
      && Lookup1(after, Some(name)) == Returned(if Bucket(reg, name) == [] then instance else reg[name][0])
      && Bound(after, Some(name), instance)
      && (other != Some(name) ==> LookupAll(after, other) == LookupAll(reg, other))
  {
    var after := Registered(reg, Some(name), instance).value;
    assert after[name][|after[name]| - 1] == instance;
  }

  /** Registering A then B under a fresh name makes lookupAll yield [A, B]. */
  lemma RegisterTwiceKeepsOrder(reg: Registry, name: string, a: Obj, b: Obj)
    requires !Blank(name) && name !in reg
    ensures Registered(reg, Some(name), a).Returned?
    ensures Registered(Registered(reg, Some(name), a).value, Some(name), b).Returned?
    ensures LookupAll(Registered(Registered(reg, Some(name), a).value, Some(name), b).value, Some(name))
            == Returned([a, b])
  {
    var once := Registered(reg, Some(name), a).value;
    assert once[name] == [a];
    assert once[name] + [b] == [a, b];
  }

  /** Removing a pair that was registered once leaves it unregistered, and a
      second unRegister of it fails with NotRegistered: unRegister is not
      idempotent. */
  lemma UnregisterTwiceFails(reg: Registry, name: string, instance: Obj)
    requires !Blank(name) && name in reg && multiset(reg[name])[instance] == 1
    ensures Unregistered(reg, Some(name), instance).Returned?
    ensures var after := Unregistered(reg, Some(name), instance).value;
      && !Bound(after, Some(name), instance)
      && Unregistered(after, Some(name), instance) == Raised(NamingException(NotRegistered))
  {
    assert instance in multiset(reg[name]);
    UnregisteredRemovesOne(reg, Some(name), instance);
    var after := Unregistered(reg, Some(name), instance).value;
    assert multiset(after[name])[instance] == 0;
  }

  /** Removing the last instance keeps the name with an empty bucket, so
      lookupAll and lookup1 then fail with the empty-bucket error rather than
      the unknown-name one. */
  lemma UnregisterLastLeavesEmptyBucket(reg: Registry, name: string, instance: Obj)
    requires !Blank(name) && name in reg && reg[name] == [instance]
    ensures Unregistered(reg, Some(name), instance).Returned?
    ensures var after := Unregistered(reg, Some(name), instance).value;
      && name in after
      && LookupAll(after, Some(name)) == Raised(NamingException(NoRegistration))
      && Lookup1(after, Some(name)) == Raised(NamingException(NoRegistration))
  {
    var after := Unregistered(reg, Some(name), instance).value;
    assert |after[name]| == 0;
  }

  /** isRegistered agrees with lookupAll: the pair is registered exactly when
      lookupAll succeeds and yields the instance. */
  lemma BoundIffLookedUp(reg: Registry, name: Option<string>, instance: Obj?)
    ensures Bound(reg, name, instance) <==>
              LookupAll(reg, name).Returned? && instance in LookupAll(reg, name).value
  {
  }

  /** In a registry built by register, every stored name passes the name
      guards: looking it up or unregistering it never fails with an
      invalid argument, and a lookup fails only on an emptied bucket. */
  lemma WellFormedNamesPassGuards(reg: Registry, name: string, instance: Obj)
    requires WellFormed(reg) && name in reg
    ensures LookupAll(reg, Some(name)).Raised? <==> reg[name] == []
    ensures LookupAll(reg, Some(name)).Raised? ==> LookupAll(reg, Some(name)).exception == NamingException(NoRegistration)
    ensures Unregistered(reg, Some(name), instance).Raised? ==>
              Unregistered(reg, Some(name), instance) == Raised(NamingException(NotRegistered))
  {
  }

  /** DefaultNameServer. */
  class NameServer {
    var registry: Registry

    ghost predicate Valid()
      reads this
    {
      WellFormed(registry)
    }

    constructor ()
      ensures Valid() && registry == map[]
    {
      registry := map[];
    }

    /** register(name, instance): validate, then append. */
    method Register(name: Option<string>, instance: Obj?) returns (o: Outcome<NameRegistration>)
      requires Valid()
      modifies this
      ensures Valid()
      ensures var r := Registered(old(registry), name, instance);
        && (r.Raised? ==> o == Raised(r.exception) && registry == old(registry))
        && (r.Returned? ==>
              && registry == r.value && o.Returned? && fresh(o.value)
              && o.value.name == name.value && o.value.instance == instance && o.value.server == this)
    {
      if name.None? || Blank(name.value) || instance == null {
        return Raised(NamingException(InvalidArgument));
      }
      var instList: seq<Obj>;
      if name.value in registry {
        instList := registry[name.value];
      } else {
        instList := [];
      }
      instList := instList + [instance];
      registry := registry[name.value := instList];
      var registration := new NameRegistration(name.value, instance, this);
      o := Returned(registration);
    }

    /** unRegister(name, instance): remove one occurrence, or throw. */
    method UnRegister(name: Option<string>, instance: Obj?) returns (o: Outcome<()>)
      requires Valid()
      modifies this
      ensures Valid()
      ensures var r := Unregistered(old(registry), name, instance);
        && (r.Raised? ==> o == Raised(r.exception) && registry == old(registry))
        && (r.Returned? ==> o == Returned(()) && registry == r.value)
    {
      if name.None? || Blank(name.value) || instance == null {
        return Raised(NamingException(InvalidArgument));
      }
      if name.value !in registry {
        return Raised(NamingException(NameNotFound));
      }
      var instList := registry[name.value];
      if instance in instList {
        instList := RemoveFirst(instList, instance);
      } else {
        return Raised(NamingException(NotRegistered));
      }
      registry := registry[name.value := instList];
      o := Returned(());
    }

    /** isRegistered(name, instance): scan the bucket for that very object;
        any lookup failure yields false instead of an exception. */
    method IsRegistered(name: Option<string>, instance: Obj?) returns (b: bool)
      ensures b <==> Bound(registry, name, instance)
    {
      b := false;
      var instances := LookupAll(registry, name);
      if instances.Returned? {
        var s := instances.value;
        var i := 0;
        while i < |s|
          invariant 0 <= i <= |s|
          invariant b <==> exists j :: 0 <= j < i && s[j] == instance
        {
          if s[i] == instance {
            b := true;
          }
          i := i + 1;
        }
      }
    }

    /** lookupAll(name, typ): every instance is checked before anything is
        returned; one instance of another type fails the whole call. The
        result holds the bucket's instances; their order is not modelled. */
    method LookupAllTyped(name: Option<string>, typ: Option<TypeName>) returns (o: Outcome<seq<Obj>>)
      ensures typ.None? ==> o == Raised(NamingException(InvalidArgument))
      ensures typ.Some? && LookupAll(registry, name).Raised? ==> o == LookupAll(registry, name)
      ensures typ.Some? && LookupAll(registry, name).Returned? ==>
        var bucket := LookupAll(registry, name).value;
        && (o.Returned? <==> forall i :: 0 <= i < |bucket| ==> HasType(bucket[i], typ.value))
        && (o.Raised? ==> o == Raised(NamingException(TypeMismatch)))
        && (o.Returned? ==> multiset(o.value) == multiset(bucket))
    {
      if typ.None? {
        return Raised(NamingException(InvalidArgument));
      }
      var instances := LookupAll(registry, name);
      if instances.Raised? {
        return instances;
      }
      var s := instances.value;
      var finalList: seq<Obj> := [];
      var i := 0;
      while i < |s|
        invariant 0 <= i <= |s|
        invariant forall j :: 0 <= j < i ==> HasType(s[j], typ.value)
        invariant multiset(finalList) == multiset(s[..i])
      {
        var inst := s[i];
        if !HasType(inst, typ.value) {
          return Raised(NamingException(TypeMismatch));
        }
        finalList := [inst] + finalList;
        assert s[..i + 1] == s[..i] + [inst];
        i := i + 1;
      }
      assert s[..i] == s;
      o := Returned(finalList);
    }
  }

  /** DefaultNameRegistration: one (name, instance) pair bound to the server
      that registered it. getRegistrationName and getRegiseredInstance are the
      fields `name` and `instance`. */
  class NameRegistration {
    const name: string
    const instance: Obj
    const server: NameServer

    constructor (name: string, instance: Obj, server: NameServer)
      ensures this.name == name && this.instance == instance && this.server == server
    {
      this.name := name;
      this.instance := instance;
      this.server := server;
    }

    /** isRegistered(): the live membership of this exact pair. */
    method IsRegistered() returns (b: bool)
      ensures b <==> Bound(server.registry, Some(name), instance)
    {
      b := server.IsRegistered(Some(name), instance);
    }

    /** unRegister(): remove this exact pair from its server. */
    method UnRegister() returns (o: Outcome<()>)
      requires server.Valid()
      modifies server
      ensures server.Valid()
      ensures var r := Unregistered(old(server.registry), Some(name), instance);
        && (r.Raised? ==> o == Raised(r.exception) && server.registry == old(server.registry))
        && (r.Returned? ==> o == Returned(()) && server.registry == r.value)
    {
      o := server.UnRegister(Some(name), instance);
    }
  }
}
