/** Main.loadSubsystem: building a group's subsystem list from the
    configuration properties. Reflective class loading is replaced by a
    factory table from class name to the script of the subsystem that class
    would instantiate. */
module Loading {
  import opened Lang
  import opened Lifecycle

  /** The property prefixes of the three groups. */
  const PRE_GROUP: string := "dsmk.pre.subsystem"
  const EXT_GROUP: string := "dsmk.ext.subsystem"
  const POST_GROUP: string := "dsmk.post.subsystem"

  /** The range of a Java int. */
  const INT_MIN: int := -0x8000_0000
  const INT_MAX: int := 0x7fff_ffff

  predicate IsDigit(c: char)
  {
    '0' <= c <= '9'
  }

  predicate AllDigits(s: string)
  {
    forall i :: 0 <= i < |s| ==> IsDigit(s[i])
  }

  /** The value of a string of decimal digits. */
  function DigitsValue(s: string): nat
    requires AllDigits(s)
  {
    if s == [] then 0 else DigitsValue(s[..|s| - 1]) * 10 + (s[|s| - 1] as int - '0' as int)
  }

  /** Integer.parseInt(s): an optional sign, then at least one decimal digit,
      and a value that fits a Java int; None stands for NumberFormatException. */
  function ParseInt(s: string): (r: Option<int>)
    ensures r.Some? ==> INT_MIN <= r.value <= INT_MAX
    ensures r.Some? ==> s != [] && (IsDigit(s[0]) || (|s| >= 2 && (s[0] == '-' || s[0] == '+')))
    ensures r.Some? ==> AllDigits(s[1..])
  {
    if s == [] then None
    else
      var digits := if s[0] == '-' || s[0] == '+' then s[1..] else s;
      if digits == [] || !AllDigits(digits) then None
      else
        var v: int := if s[0] == '-' then 0 - DigitsValue(digits) else DigitsValue(digits);
        if INT_MIN <= v <= INT_MAX then Some(v) else None
  }

  /** String.format("%d", n) for n >= 0: the shortest decimal numeral, with
      no leading zero. */
  function DecimalString(n: nat): (s: string)
    ensures s != [] && AllDigits(s)
    ensures |s| == 1 || s[0] != '0'
    ensures DigitsValue(s) == n
  {
    if n < 10 then [('0' as int + n) as char]
    else
      var prefix := DecimalString(n / 10);
      var s := prefix + [('0' as int + n % 10) as char];
      assert s[..|s| - 1] == prefix;
      s
  }

  /** Integer.parseInt reads back what %d writes. */
  lemma ParseIntOfDecimalString(n: nat)
    requires n <= INT_MAX
    ensures ParseInt(DecimalString(n)) == Some(n)
  {
    var s := DecimalString(n);
    assert IsDigit(s[0]);
  }

  /** Conversely, an unsigned string of digits whose value fits a Java int
      parses to that value. */
  lemma ParseIntOfDigits(s: string)
    requires s != [] && AllDigits(s) && DigitsValue(s) <= INT_MAX
    ensures ParseInt(s) == Some(DigitsValue(s) as int)
  {
    assert IsDigit(s[0]);
  }

  /** A sign followed by digits parses to the signed value when it fits a
      Java int: "-5" is -5 and "+3" is 3. */
  lemma ParseIntOfSigned(c: char, d: string)
    requires c == '-' || c == '+'
    requires d != [] && AllDigits(d)
    requires var v: int := if c == '-' then 0 - DigitsValue(d) else DigitsValue(d); INT_MIN <= v <= INT_MAX
    ensures ParseInt([c] + d) == Some(if c == '-' then 0 - DigitsValue(d) as int else DigitsValue(d) as int)
  {
    assert ([c] + d)[1..] == d;
  }

  /** Whether key k belongs to group g, that is, starts with "<g>.". */
  predicate InGroup(g: string, k: string)
  {
    |g| < |k| && k[..|g| + 1] == g + "."
  }

  /** "<group>.count" */
  function CountKey(group: string): string
  {
    group + ".count"
  }

  /** "<group>.<i>.class" */
  function ClassKey(group: string, i: nat): string
  {
    group + "." + DecimalString(i) + ".class"
  }

  /** The count property's text, "0" when it is absent. */
  function CountText(props: map<string, string>, group: string): string
  {
    if CountKey(group) in props then props[CountKey(group)] else "0"
  }

  /** The class names found for the indices below n, in index order; a
      missing index is skipped. */
  ghost function ClassNames(props: map<string, string>, group: string, n: nat): (names: seq<string>)
    ensures |names| <= n
  {
    if n == 0 then []
    else
      ClassNames(props, group, n - 1)
      + (if ClassKey(group, n - 1) in props then [props[ClassKey(group, n - 1)]] else [])
  }

  /** Scanning further only adds names at the end. */
  lemma {:induction false} ClassNamesGrow(props: map<string, string>, group: string, m: nat, n: nat)
    requires m <= n
    ensures ClassNames(props, group, m) <= ClassNames(props, group, n)
  {
    if m < n {
      ClassNamesGrow(props, group, m, n - 1);
    }
  }

  /** The number of indices loadSubsystem scans: the parsed count, or none
      when it is negative. */
  function ScanLength(count: int): nat
  {
    if count < 0 then 0 else count
  }

  /** Every name has a factory. */
  predicate AllKnown(names: seq<string>, factories: map<string, Script>)
  {
    forall j :: 0 <= j < |names| ==> names[j] in factories
  }

  /** The list holds one subsystem per name, in order, each with the script
      of its name's factory. */
  predicate Instantiates(list: seq<Subsystem>, names: seq<string>, factories: map<string, Script>)
  {
    && |list| == |names|
    && forall j :: 0 <= j < |names| ==> names[j] in factories && list[j].script == factories[names[j]]
  }

  /** loadSubsystem(groupname, props): reads <group>.count (default 0), then
      for each index below it instantiates the class named by
      <group>.<index>.class, skipping absent entries. */
  method LoadSubsystem(group: string, props: map<string, string>, factories: map<string, Script>)
    returns (o: Outcome<seq<Subsystem>>)
    ensures ParseInt(CountText(props, group)).None? ==> o == Raised(NumberFormatException)
    ensures ParseInt(CountText(props, group)).Some? ==>
      var names := ClassNames(props, group, ScanLength(ParseInt(CountText(props, group)).value));
      && (o.Raised? <==> !AllKnown(names, factories))
      && (o.Raised? ==> o.exception == ClassNotFoundException)
      && (o.Returned? ==> Instantiates(o.value, names, factories))
  {
    var parsed := ParseInt(CountText(props, group));
    if parsed.None? {
      return Raised(NumberFormatException);
    }
    o := LoadClasses(group, props, factories, parsed.value);
  }

  /** The loop of loadSubsystem: for each index below count, instantiate the
      class named by <group>.<index>.class, skipping absent entries; an
      unknown class name throws ClassNotFoundException. */
  method LoadClasses(group: string, props: map<string, string>, factories: map<string, Script>, count: int)
    returns (o: Outcome<seq<Subsystem>>)
    ensures var names := ClassNames(props, group, ScanLength(count));
      && (o.Raised? <==> !AllKnown(names, factories))
      && (o.Raised? ==> o.exception == ClassNotFoundException)
      && (o.Returned? ==> Instantiates(o.value, names, factories))
  {
    ghost var scan := ScanLength(count);
    var subsystemList: seq<Subsystem> := [];
    ghost var names: seq<string> := [];
    var i := 0;
    while i < count
      invariant 0 <= i <= scan
      invariant names == ClassNames(props, group, i)
      invariant Instantiates(subsystemList, names, factories)
    {
      var clzProperty := ClassKey(group, i);
      if clzProperty in props {
        var clzName := props[clzProperty];
        assert ClassNames(props, group, i + 1) == names + [clzName];
        if clzName !in factories {
          ClassNamesGrow(props, group, i + 1, scan);
          UnknownNameInScan(ClassNames(props, group, i + 1), ClassNames(props, group, scan), factories);
          return Raised(ClassNotFoundException);
        }
        var subsys := new Subsystem(factories[clzName]);
        InstantiatesAppend(subsystemList, names, subsys, clzName, factories);
        names := names + [clzName];
        subsystemList := subsystemList + [subsys];
      }
      i := i + 1;
    }
    assert i == scan;
    o := Returned(subsystemList);
  }

  /** Setting a property outside a group's keys changes neither the group's
      count text nor any class name its scan reads, so loadSubsystem for that
      group does the same. */
  lemma {:induction false} LoadIgnoresOtherKeys(props: map<string, string>, group: string, k: string, v: string, n: nat)
    requires !InGroup(group, k)
    ensures CountText(props[k := v], group) == CountText(props, group)
    ensures ClassNames(props[k := v], group, n) == ClassNames(props, group, n)
  {
    assert CountKey(group)[..|group| + 1] == group + ".";
    if n > 0 {
      LoadIgnoresOtherKeys(props, group, k, v, n - 1);
      assert ClassKey(group, n - 1)[..|group| + 1] == group + ".";
    }
  }

  /** The pre, ext and post groups own disjoint keys: no property belongs to
      two of them. */
  lemma GroupsAreApart(k: string)
    ensures !(InGroup(PRE_GROUP, k) && InGroup(EXT_GROUP, k))
    ensures !(InGroup(PRE_GROUP, k) && InGroup(POST_GROUP, k))
    ensures !(InGroup(EXT_GROUP, k) && InGroup(POST_GROUP, k))
  {
    if InGroup(PRE_GROUP, k) {
      assert k[5] == k[..|PRE_GROUP| + 1][5] == 'p' && k[6] == k[..|PRE_GROUP| + 1][6] == 'r';
    }
    if InGroup(EXT_GROUP, k) {
      assert k[5] == k[..|EXT_GROUP| + 1][5] == 'e';
    }
    if InGroup(POST_GROUP, k) {
      assert k[5] == k[..|POST_GROUP| + 1][5] == 'p' && k[6] == k[..|POST_GROUP| + 1][6] == 'o';
    }
  }

  /** A name without factory, last in a prefix of the scan, makes the scan
      fail. */
  lemma UnknownNameInScan(prefix: seq<string>, all: seq<string>, factories: map<string, Script>)
    requires prefix <= all && prefix != [] && prefix[|prefix| - 1] !in factories
    ensures !AllKnown(all, factories)
  {
    assert all[|prefix| - 1] == prefix[|prefix| - 1];
  }

  /** Instantiating one more known name extends the list by its subsystem. */
  lemma InstantiatesAppend(list: seq<Subsystem>, names: seq<string>, s: Subsystem, name: string,
                           factories: map<string, Script>)
    requires Instantiates(list, names, factories)
    requires name in factories && s.script == factories[name]
    ensures Instantiates(list + [s], names + [name], factories)
  {
  }
}
