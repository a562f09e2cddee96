/**
 * The proxy document builder: the class-level attribute defaults that every
 * proxy shares, the `Proxy` object that fills a fixed skeleton with one
 * property node and one context binding per parameter key, and a reference
 * description of the finished `inSequence` with the properties proved of it.
 */
module Proxies {
  import opened Wrappers
  import opened Xml

  /** The attribute names of the root `proxy`; overrides of any other name are ignored. */
  const RecognisedAttribs: set<string> := {"name", "xmlns", "startOnLoad", "statistics", "trace", "transports"}

  /** `Proxy._attribs` as the class is defined, with `name` the word it was given at load time. */
  function DefaultAttribs(name: string): (m: map<string, string>)
    ensures m.Keys == RecognisedAttribs
    ensures m["name"] == name && m["xmlns"] == "http://ws.apache.org/ns/synapse"
    ensures m["startOnLoad"] == "true" && m["statistics"] == "disable"
    ensures m["trace"] == "disable" && m["transports"] == "http,https"
  {
    map[
      "name" := name,
      "xmlns" := "http://ws.apache.org/ns/synapse",
      "startOnLoad" := "true",
      "statistics" := "disable",
      "trace" := "disable",
      "transports" := "http,https"
    ]
  }

  /** The shared defaults after the overrides loop: only names already present take a new value. */
  function Overridden(shared: map<string, string>, overrides: map<string, string>): (m: map<string, string>)
    ensures m.Keys == shared.Keys
    ensures forall a :: a in shared && a in overrides ==> m[a] == overrides[a]
    ensures forall a :: a in shared && a !in overrides ==> m[a] == shared[a]
  {
    map a | a in shared :: if a in overrides then overrides[a] else shared[a]
  }

  /** Overrides given to successive constructions accumulate, the later one winning on a clash. */
  lemma OverridesAccumulate(shared: map<string, string>, first: map<string, string>, second: map<string, string>)
    ensures Overridden(Overridden(shared, first), second) == Overridden(shared, first + second)
  {
  }

  /** The class attribute `Proxy._attribs`: one dictionary shared by every `Proxy`. */
  class SharedAttribs {
    var attribs: map<string, string>

    ghost predicate Valid()
      reads this
    {
      attribs.Keys == RecognisedAttribs
    }

    /** `name` stands for the random word the class draws when it is loaded. */
    constructor (name: string)
      ensures Valid() && attribs == DefaultAttribs(name)
    {
      attribs := DefaultAttribs(name);
    }

    /** The loop at the head of `Proxy.__init__` over the caller's `attribs`. */
    method Override(overrides: map<string, string>)
      requires Valid()
      modifies this
      ensures Valid() && attribs == Overridden(old(attribs), overrides)
    {
      var pending := overrides.Keys;
      assert overrides - pending == map[];
      while pending != {}
        invariant pending <= overrides.Keys
        invariant attribs == Overridden(old(attribs), overrides - pending)
        decreases pending
      {
        var a :| a in pending;
        if a in attribs {
          attribs := attribs[a := overrides[a]];
        }
        pending := pending - {a};
      }
      assert overrides - pending == overrides;
    }
  }

  /** Whether a key is bound under the init tag or under the method tag. */
  datatype PropKind = Init | Meth

  /** `Proxy._init_tag_name`. */
  function InitTagName(conn: string): (r: string)
    ensures |r| == |conn| + 5 && r[..|conn|] == conn && r[|conn|..] == ".init"
  {
    conn + ".init"
  }

  /** `Proxy._meth_tag_name`. */
  function MethTagName(conn: string, meth: string): (r: string)
    ensures |r| == |conn| + 1 + |meth| && r[..|conn|] == conn && r[|conn|] == '.' && r[|conn| + 1..] == meth
  {
    conn + "." + meth
  }

  /** The two tag names coincide exactly for the method `init`. */
  lemma {:induction false} TagNamesCoincide(conn: string, meth: string)
    ensures InitTagName(conn) == MethTagName(conn, meth) <==> meth == "init"
  {
    if InitTagName(conn) == MethTagName(conn, meth) {
      assert meth == MethTagName(conn, meth)[|conn| + 1..];
      assert "init" == InitTagName(conn)[|conn| + 1..];
    }
  }

  /** 0 when the method tag name finds the init tag, 1 when it finds its own element. */
  function MethOffset(conn: string, meth: string): nat
  {
    if InitTagName(conn) == MethTagName(conn, meth) then 0 else 1
  }

  /** The `property` node that extracts `key` from the request body. */
  function Property(key: string): (e: Element)
    ensures e.tag == "property" && e.attrib.Keys == {"name", "expression"}
    ensures e.attrib["name"] == key && e.attrib["expression"] == "json-eval($." + key + ")"
    ensures e.text == None && e.children == []
  {
    Element("property", map["name" := key, "expression" := "json-eval($." + key + ")"], None, [])
  }

  /** The element `<key>{$ctx:key}</key>` that binds `key` from the request context. */
  function Binding(key: string): (e: Element)
    ensures e.tag == key && e.attrib == map[] && e.text == Some("{$ctx:" + key + "}") && e.children == []
  {
    Element(key, map[], Some("{$ctx:" + key + "}"), [])
  }

  /** The property nodes for `keys` after each was inserted at the head: the last key first. */
  function PropertyNodes(keys: seq<string>): (r: seq<Element>)
    ensures |r| == |keys|
  {
    if keys == [] then [] else [Property(keys[|keys| - 1])] + PropertyNodes(keys[..|keys| - 1])
  }

  /** The bindings for `keys` after each was appended under its tag: in key order. */
  function Bindings(keys: seq<string>): (r: seq<Element>)
    ensures |r| == |keys|
  {
    if keys == [] then [] else Bindings(keys[..|keys| - 1]) + [Binding(keys[|keys| - 1])]
  }

  /** The `target` body around the children of `inSequence`. */
  function Target(inSequence: seq<Element>): Element
  {
    Element("target", map[], None, [
      Element("inSequence", map[], None, inSequence),
      Empty("outSequence"),
      Empty("faultSequence")
    ])
  }

  /** The tree `Proxy._bodybase` describes, before any key is bound. */
  function BodyBase(conn: string, meth: string): (body: Element)
    ensures body == Target(InSequence(conn, meth, [], []))
  {
    var none: seq<string> := [];
    assert none + none == none && PropertyNodes(none) == [] && Bindings(none) == [];
    assert Element(InitTagName(conn), map[], None, []) == Empty(InitTagName(conn));
    assert InSequence(conn, meth, none, none)
        == [Empty(InitTagName(conn)), Empty(MethTagName(conn, meth)), Empty("respond")];
    Target([Empty(InitTagName(conn)), Empty(MethTagName(conn, meth)), Empty("respond")])
  }

  /** The whole document: the `proxy` root with its attributes and the body. */
  function ProxyTree(attribs: map<string, string>, inSequence: seq<Element>): Element
  {
    Element("proxy", attribs, None, [Target(inSequence)])
  }

  /**
   * Reference description of `inSequence` once every init key and then every
   * method key is bound: the property nodes, newest first, then the init tag,
   * the method tag and `respond`. When both tag names coincide, the method
   * tag's lookup finds the init tag, which then takes every binding.
   */
  function InSequence(conn: string, meth: string, initKeys: seq<string>, methKeys: seq<string>): seq<Element>
  {
    var initTag, methTag := InitTagName(conn), MethTagName(conn, meth);
    PropertyNodes(initKeys + methKeys) +
    if initTag == methTag then
      [Element(initTag, map[], None, Bindings(initKeys + methKeys)), Empty(methTag), Empty("respond")]
    else
      [Element(initTag, map[], None, Bindings(initKeys)), Element(methTag, map[], None, Bindings(methKeys)), Empty("respond")]
  }

  /**
   * The children of `inSequence` after `addproperty(key, ...)` when the tag the
   * key binds under stands at `pos`: the property node goes to the head and the
   * binding is appended under that tag.
   */
  function WithProperty(children: seq<Element>, pos: nat, key: string): (r: seq<Element>)
    requires pos < |children|
    ensures |r| == |children| + 1 && r[0] == Property(key)
    ensures r[pos + 1].tag == children[pos].tag && r[pos + 1].children == children[pos].children + [Binding(key)]
  {
    [Property(key)] + children[pos := SubElement(children[pos], Binding(key))]
  }

  /** `addproperty` leaves every element of `inSequence` other than the bound tag as it was, one place further on. */
  lemma WithPropertyElsewhere(children: seq<Element>, pos: nat, key: string)
    requires pos < |children|
    ensures forall i :: 0 <= i < |children| && i != pos ==> WithProperty(children, pos, key)[i + 1] == children[i]
  {
  }

  /** Binding the next init key, before any method key, is one `addproperty` on the init tag. */
  lemma {:induction false} BindInitKey(conn: string, meth: string, initKeys: seq<string>, i: nat)
    requires i < |initKeys|
    ensures InSequence(conn, meth, initKeys[..i + 1], [])
         == WithProperty(InSequence(conn, meth, initKeys[..i], []), i, initKeys[i])
  {
    var done, keys := initKeys[..i], initKeys[..i + 1];
    assert keys + [] == keys && done + [] == done;
    assert keys[..i] == done;
  }

  /** Binding the next method key is one `addproperty` on whatever the method tag lookup found. */
  lemma {:induction false} BindMethKey(conn: string, meth: string, initKeys: seq<string>, methKeys: seq<string>, j: nat)
    requires j < |methKeys|
    ensures InSequence(conn, meth, initKeys, methKeys[..j + 1])
         == WithProperty(InSequence(conn, meth, initKeys, methKeys[..j]), |initKeys| + j + MethOffset(conn, meth), methKeys[j])
  {
    var done, keys := methKeys[..j], methKeys[..j + 1];
    assert keys == done + [methKeys[j]];
    assert initKeys + keys == (initKeys + done) + [methKeys[j]];
    assert (initKeys + keys)[..|initKeys| + j] == initKeys + done;
    assert keys[..j] == done;
  }

  /** The `i`-th property node is the one for the `i`-th key counted from the end. */
  lemma {:induction false} PropertyNodesAt(keys: seq<string>, i: int)
    requires 0 <= i < |keys|
    ensures PropertyNodes(keys)[i] == Property(keys[|keys| - 1 - i])
  {
    if i > 0 {
      PropertyNodesAt(keys[..|keys| - 1], i - 1);
    }
  }

  /** The `i`-th binding is the one for the `i`-th key. */
  lemma {:induction false} BindingsAt(keys: seq<string>, i: int)
    requires 0 <= i < |keys|
    ensures Bindings(keys)[i] == Binding(keys[i])
  {
    if i < |keys| - 1 {
      BindingsAt(keys[..|keys| - 1], i);
    }
  }

  /**
   * Layout of the finished `inSequence`: `|init| + |meth|` property nodes in
   * the reverse of init-then-method order, each with exactly the attributes
   * `name` and `expression` and no children, then the init tag, the method tag
   * and an empty `respond`.
   */
  lemma InSequenceLayout(conn: string, meth: string, initKeys: seq<string>, methKeys: seq<string>)
    ensures var w, keys, n := InSequence(conn, meth, initKeys, methKeys), initKeys + methKeys, |initKeys| + |methKeys|;
      && |w| == n + 3
      && (forall i :: 0 <= i < n ==>
            && w[i].tag == "property"
            && w[i].attrib == map["name" := keys[n - 1 - i], "expression" := "json-eval($." + keys[n - 1 - i] + ")"]
            && w[i].text == None
            && w[i].children == [])
      && w[n].tag == InitTagName(conn) && w[n].attrib == map[] && w[n].text == None
      && w[n + 1].tag == MethTagName(conn, meth) && w[n + 1].attrib == map[] && w[n + 1].text == None
      && w[n + 2] == Empty("respond")
  {
    var keys := initKeys + methKeys;
    forall i | 0 <= i < |keys|
      ensures InSequence(conn, meth, initKeys, methKeys)[i] == Property(keys[|keys| - 1 - i])
    {
      PropertyNodesAt(keys, i);
    }
  }

  /**
   * For a method other than `init`, the init tag holds one `<key>{$ctx:key}</key>`
   * per init key and the method tag one per method key, each in key order.
   */
  lemma BindingsLayout(conn: string, meth: string, initKeys: seq<string>, methKeys: seq<string>)
    requires meth != "init"
    ensures var w, n := InSequence(conn, meth, initKeys, methKeys), |initKeys| + |methKeys|;
      && |w[n].children| == |initKeys|
      && (forall i :: 0 <= i < |initKeys| ==>
            w[n].children[i] == Element(initKeys[i], map[], Some("{$ctx:" + initKeys[i] + "}"), []))
      && |w[n + 1].children| == |methKeys|
      && (forall i :: 0 <= i < |methKeys| ==>
            w[n + 1].children[i] == Element(methKeys[i], map[], Some("{$ctx:" + methKeys[i] + "}"), []))
  {
    TagNamesCoincide(conn, meth);
    forall i | 0 <= i < |initKeys|
      ensures Bindings(initKeys)[i] == Binding(initKeys[i])
    {
      BindingsAt(initKeys, i);
    }
    forall i | 0 <= i < |methKeys|
      ensures Bindings(methKeys)[i] == Binding(methKeys[i])
    {
      BindingsAt(methKeys, i);
    }
  }

  /**
   * For the method `init` both lookups find the first tag: it takes every
   * binding, init keys then method keys, and the second tag stays empty.
   */
  lemma AliasedInitTag(conn: string, initKeys: seq<string>, methKeys: seq<string>)
    ensures var w, keys, n := InSequence(conn, "init", initKeys, methKeys), initKeys + methKeys, |initKeys| + |methKeys|;
      && |w[n].children| == n
      && (forall i :: 0 <= i < n ==>
            w[n].children[i] == Element(keys[i], map[], Some("{$ctx:" + keys[i] + "}"), []))
      && w[n + 1] == Empty(conn + ".init")
  {
    TagNamesCoincide(conn, "init");
    var keys := initKeys + methKeys;
    forall i | 0 <= i < |keys|
      ensures Bindings(keys)[i] == Binding(keys[i])
    {
      BindingsAt(keys, i);
    }
  }

  /**
   * The whole document: a `proxy` root with the given attributes and exactly
   * one child, `target`, holding `inSequence`, an empty `outSequence` and an
   * empty `faultSequence`.
   */
  lemma ProxyTreeShape(attribs: map<string, string>, inSequence: seq<Element>)
    ensures var root := ProxyTree(attribs, inSequence);
      && root.tag == "proxy" && root.attrib == attribs
      && |root.children| == 1
      && root.children[0].tag == "target"
      && |root.children[0].children| == 3
      && root.children[0].children[0].tag == "inSequence"
      && root.children[0].children[0].children == inSequence
      && root.children[0].children[1] == Empty("outSequence")
      && root.children[0].children[2] == Empty("faultSequence")
  {
  }

  /** Connector `cat`, method `getAllCats`, init key `token`, method keys `limit` and `offset`. */
  lemma CatExample()
    ensures InSequence("cat", "getAllCats", ["token"], ["limit", "offset"]) == [
      Property("offset"), Property("limit"), Property("token"),
      Element("cat.init", map[], None, [Binding("token")]),
      Element("cat.getAllCats", map[], None, [Binding("limit"), Binding("offset")]),
      Empty("respond")
    ]
  {
    var keys: seq<string> := ["token", "limit", "offset"];
    assert ["token"] + ["limit", "offset"] == keys;
    assert PropertyNodes(keys) == [Property("offset"), Property("limit"), Property("token")] by {
      assert keys[..2] == ["token", "limit"];
      assert keys[..2][..1] == ["token"];
      assert PropertyNodes(["token"]) == [Property("token")];
    }
    assert Bindings(["limit", "offset"]) == [Binding("limit"), Binding("offset")] by {
      assert ["limit", "offset"][..1] == ["limit"];
      assert Bindings(["limit"]) == [Binding("limit")];
    }
    assert Bindings(["token"]) == [Binding("token")];
    assert InitTagName("cat") == "cat.init" && MethTagName("cat", "getAllCats") == "cat.getAllCats";
    assert "cat.init" != "cat.getAllCats" by {
      assert |"cat.init"| != |"cat.getAllCats"|;
    }
  }

  /**
   * In the skeleton, `inSequence` is the body's first child, the init tag name
   * finds the first element of `inSequence` and the method tag name the first or
   * the second; with no key bound, `inSequence` is the reference description.
   */
  lemma SkeletonLookups(conn: string, meth: string)
    ensures Find(BodyBase(conn, meth).children, "inSequence") == Some(0)
    ensures var skeleton := BodyBase(conn, meth).children[0].children;
      && Find(skeleton, InitTagName(conn)) == Some(0)
      && Find(skeleton, MethTagName(conn, meth)) == Some(MethOffset(conn, meth))
      && skeleton == InSequence(conn, meth, [], [])
  {
  }

  /**
   * The lookups of `__init__` on the parsed skeleton: `inSequence`, then the
   * elements named by the init and the method tag names inside it.
   */
  method ParseSkeleton(conn: string, meth: string) returns (skeleton: seq<Element>, initAt: nat, methAt: nat)
    ensures skeleton == InSequence(conn, meth, [], [])
    ensures initAt == 0 && methAt == MethOffset(conn, meth)
  {
    var body := BodyBase(conn, meth);
    var wrapAt := Find(body.children, "inSequence");
    SkeletonLookups(conn, meth);
    skeleton := body.children[wrapAt.value].children;
    initAt := Find(skeleton, InitTagName(conn)).value;
    methAt := Find(skeleton, MethTagName(conn, meth)).value;
  }

  /** After the keys are bound the two positions still hold the init and the method tags. */
  lemma KeyedPositions(conn: string, meth: string, initKeys: seq<string>, methKeys: seq<string>)
    ensures var w, n := InSequence(conn, meth, initKeys, methKeys), |initKeys| + |methKeys|;
      && n + MethOffset(conn, meth) < |w|
      && w[n].tag == InitTagName(conn)
      && w[n + MethOffset(conn, meth)].tag == MethTagName(conn, meth)
  {
    InSequenceLayout(conn, meth, initKeys, methKeys);
    TagNamesCoincide(conn, meth);
  }

  /** One generated proxy document. */
  class Proxy {
    var methName: string
    var connName: string
    var init: seq<string>
    var meth: seq<string>
    /** The attributes of the root: a copy of the shared defaults taken at construction. */
    var rootAttribs: map<string, string>
    /** The children of `inSequence`, which `addproperty` changes in place. */
    var wrap: seq<Element>
    /** Where the elements `_init_tag` and `_meth_tag` refer to stand in `wrap`. */
    var initPos: nat
    var methPos: nat

    /**
     * The two positions stand for the `_init_tag` and `_meth_tag` references:
     * the elements found by the init and the method tag names. (For the method
     * `init` both names are `<connector>.init`.)
     */
    ghost predicate Valid()
      reads this
    {
      && initPos < |wrap| && methPos < |wrap|
      && wrap[initPos].tag == InitTagName(connName)
      && wrap[methPos].tag == MethTagName(connName, methName)
    }

    /** `self.xml`; the body is attached by reference, so it shows every later change to `inSequence`. */
    function Xml(): (root: Element)
      reads this
      ensures root.tag == "proxy" && root.attrib == rootAttribs && |root.children| == 1
      ensures root.children[0].tag == "target" && |root.children[0].children| == 3
      ensures root.children[0].children[0].tag == "inSequence" && root.children[0].children[0].children == wrap
    {
      ProxyTree(rootAttribs, wrap)
    }

    /** `Proxy(meth_name, conn_name, init, meth, attribs)`, with the class attribute passed as `shared`. */
    constructor (methName: string, connName: string, init: seq<string>, meth: seq<string>,
                 attribs: map<string, string>, shared: SharedAttribs)
      requires shared.Valid()
      modifies shared
      ensures shared.Valid() && shared.attribs == Overridden(old(shared.attribs), attribs)
      ensures this.methName == methName && this.connName == connName
      ensures this.init == init && this.meth == meth
      ensures rootAttribs == shared.attribs
      ensures Valid()
      ensures wrap == InSequence(connName, methName, init, meth)
      ensures initPos == |init| + |meth|
      ensures methPos == if methName == "init" then initPos else initPos + 1
    {
      this.init := init;
      this.meth := meth;
      this.methName := methName;
      this.connName := connName;
      shared.Override(attribs);
      rootAttribs := shared.attribs;
      var skeleton, initAt, methAt := ParseSkeleton(connName, methName);
      wrap, initPos, methPos := skeleton, initAt, methAt;
      new;
      TagNamesCoincide(connName, methName);
      AddInitProperties(init);
      AddMethProperties(init, meth);
      KeyedPositions(connName, methName, init, meth);
    }

    /** The constructor's loop `for key in init: self.addproperty(key, PropKind.Init)`. */
    method AddInitProperties(keys: seq<string>)
      requires wrap == InSequence(connName, methName, [], [])
      requires initPos == 0 && methPos == MethOffset(connName, methName)
      modifies this`wrap, this`initPos, this`methPos
      ensures wrap == InSequence(connName, methName, keys, [])
      ensures initPos == |keys| && methPos == |keys| + MethOffset(connName, methName)
    {
      var i := 0;
      while i < |keys|
        invariant 0 <= i <= |keys|
        invariant wrap == InSequence(connName, methName, keys[..i], [])
        invariant initPos == i && methPos == i + MethOffset(connName, methName)
      {
        BindInitKey(connName, methName, keys, i);
        AddProperty(keys[i], Init);
        i := i + 1;
      }
      assert keys[..i] == keys;
    }

    /** The constructor's loop `for key in meth: self.addproperty(key, PropKind.Meth)`, after the init keys. */
    method AddMethProperties(ghost initKeys: seq<string>, keys: seq<string>)
      requires wrap == InSequence(connName, methName, initKeys, [])
      requires initPos == |initKeys| && methPos == |initKeys| + MethOffset(connName, methName)
      modifies this`wrap, this`initPos, this`methPos
      ensures wrap == InSequence(connName, methName, initKeys, keys)
      ensures initPos == |initKeys| + |keys| && methPos == |initKeys| + |keys| + MethOffset(connName, methName)
    {
      var j := 0;
      assert keys[..0] == [];
      while j < |keys|
        invariant 0 <= j <= |keys|
        invariant wrap == InSequence(connName, methName, initKeys, keys[..j])
        invariant initPos == |initKeys| + j && methPos == |initKeys| + j + MethOffset(connName, methName)
      {
        BindMethKey(connName, methName, initKeys, keys, j);
        AddProperty(keys[j], Meth);
        j := j + 1;
      }
      assert keys[..j] == keys;
    }

    /** `addproperty(key, kind)`: a property node at the head of `inSequence`, a binding under the tag `kind` names. */
    method AddProperty(key: string, kind: PropKind)
      requires Valid()
      modifies this`wrap, this`initPos, this`methPos
      ensures Valid()
      ensures wrap == WithProperty(old(wrap), if kind == Init then old(initPos) else old(methPos), key)
      ensures initPos == old(initPos) + 1 && methPos == old(methPos) + 1
    {
      wrap := [Property(key)] + wrap;
      initPos, methPos := initPos + 1, methPos + 1;
      var tag := if kind == Init then initPos else methPos;
      wrap := wrap[tag := SubElement(wrap[tag], Binding(key))];
    }
  }

  /**
   * Two proxies built one after the other on the same class attribute: the
   * first one's accepted overrides stay in force for the second, and the
   * first document keeps the attributes it copied.
   */
  method SuccessiveProxies(shared: SharedAttribs, conn: string, meth: string,
                           first: map<string, string>, second: map<string, string>)
    returns (p: Proxy, q: Proxy)
    requires shared.Valid()
    modifies shared
    ensures p.Xml().attrib == Overridden(old(shared.attribs), first)
    ensures q.Xml().attrib == Overridden(old(shared.attribs), first + second)
    ensures forall a :: a in RecognisedAttribs && a in first && a !in second ==> q.Xml().attrib[a] == first[a]
    ensures forall a :: a !in RecognisedAttribs ==> a !in q.Xml().attrib
  {
    p := new Proxy(meth, conn, [], [], first, shared);
    q := new Proxy(meth, conn, [], [], second, shared);
    OverridesAccumulate(old(shared.attribs), first, second);
  }
}
