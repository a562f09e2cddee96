# x-connector-easy: the proxy builder, in Dafny

`connector-test-easy.py` turns the parameter keys of an integration-broker
connector call into a broker proxy definition: an XML tree whose root `proxy`
carries a handful of shared default attributes, and whose single `target`
child holds an `inSequence` (one `property` node per key, then the init call
`<connector>.init`, the method call `<connector>.<method>` and `respond`), an
empty `outSequence` and an empty `faultSequence`. Each key also gets a context
binding `<key>{$ctx:key}</key>` under the call it belongs to. A small helper,
`rmext`, turns the data file name into the method name.

This project models that builder and states what it guarantees:

- `wrappers.dfy`: `Option`, for Python's `None`.
- `filenames.dfy` (module `Filenames`): `rmext` and the substring search under
  it (`in`, `str.index`), with its characterisation, a round trip, idempotence
  and the double-extension case.
- `xml.dfy` (module `Xml`): the element tree as a value (`Element`: tag,
  attribute map, optional text, children), `SubElement` and `find`.
- `proxies.dfy` (module `Proxies`): the class attribute `Proxy._attribs` as a
  shared object (`SharedAttribs`) and its override loop; the `Proxy` class,
  whose `inSequence` child list is a field that `AddProperty` changes in place;
  a reference description `InSequence` of the finished sequence, and lemmas
  about it (length, order, attributes, bindings, the `init` method case, the
  document shape, a worked example).
- `cli.dfy` (module `Cli`): only the constructor call in the entry point, as
  written and corrected (see Findings).

Details of the code's behaviour that the model keeps: the
bindings' text is `{$ctx:key}` (the doubled braces are `str.format` escapes);
key lists may repeat keys (nothing requires them disjoint); the default name
is drawn once when the class is defined, not at first construction; and when
the method is called `init` both tag lookups find the first `<connector>.init`
element, so every key binds under it and the second one stays empty.

## Model

| member | source | states |
|---|---|---|
| Filenames.FindFrom | connector-test-easy.py:17-20 | the result is the leftmost position at or after `from` where the pattern occurs; no occurrence is skipped, and none means there is no occurrence from `from` on |
| Filenames.Contains | connector-test-easy.py:17 | `pat in s` holds exactly when `pat` occurs at some position of `s` |
| Filenames.Index | connector-test-easy.py:20 | `s.index(pat)` is a position where `pat` occurs, and it occurs at no earlier position |
| Filenames.RmExt | connector-test-easy.py:14-24 | the result is the name minus its last five characters exactly when `.json` ends the name and occurs nowhere earlier; otherwise the name unchanged; always a prefix of the name |
| Filenames.RmExtRoundTrip | connector-test-easy.py:14-24 | a name without `.json` in it comes back unchanged after `.json` is appended and stripped |
| Filenames.RmExtIdempotent | connector-test-easy.py:14-24 | stripping a second time changes nothing |
| Filenames.RmExtKeepsDoubleExt | connector-test-easy.py:17-24 | a name ending in `.json.json` is returned whole, because the first `.json` is not the suffix |
| Filenames.RmExtDoubleExtExample | connector-test-easy.py:17-24 | `a.json.json` is returned unchanged |
| Filenames.NoDotNoExt | connector-test-easy.py:17 | a name without a dot does not contain `.json` |
| Xml.SubElement | connector-test-easy.py:92 | `SubElement` appends the child as the last child and leaves tag, attributes, text and the earlier children as they were |
| Xml.Find | connector-test-easy.py:69-71 | `find` gives the first direct child with the tag, and none when no child has it |
| Proxies.DefaultAttribs | connector-test-easy.py:45-52 | the shared defaults hold exactly the six recognised attribute names: `name` the drawn word, `xmlns` the synapse namespace, `startOnLoad` `true`, `statistics` and `trace` `disable`, `transports` `http,https` |
| Proxies.Overridden | connector-test-easy.py:62-64 | after the override loop the shared map has the same names as before; a name that was present and is overridden takes the override, every other present name keeps its value, and unknown names are not added |
| Proxies.OverridesAccumulate | connector-test-easy.py:62-66 | overrides given to two successive constructions accumulate in the shared map, the later winning on a clash |
| Proxies.SharedAttribs.constructor | connector-test-easy.py:45-52 | the class attribute starts as the defaults, holding the recognised names |
| Proxies.SharedAttribs.Override | connector-test-easy.py:62-64 | the loop over the caller's overrides leaves the shared map equal to `Overridden` of its old value, still with exactly the recognised names |
| Proxies.InitTagName | connector-test-easy.py:98-99 | the init tag name is the connector followed by `.init`; see TagNamesCoincide |
| Proxies.MethTagName | connector-test-easy.py:101-102 | the method tag name is the connector, a dot and the method; see TagNamesCoincide |
| Proxies.TagNamesCoincide | connector-test-easy.py:98-102 | the init tag name and the method tag name are equal exactly when the method is called `init` |
| Proxies.Property | connector-test-easy.py:81-84 | a property node has tag `property`, exactly the attributes `name = key` and `expression = json-eval($.key)`, no text and no children |
| Proxies.Binding | connector-test-easy.py:92 | a binding has the key as its tag, no attributes, the text `{$ctx:key}` and no children |
| Proxies.PropertyNodes | connector-test-easy.py:80-85 | one property node per key |
| Proxies.Bindings | connector-test-easy.py:86-92 | one binding per key |
| Proxies.BodyBase | connector-test-easy.py:104-115 | the skeleton is the `target` body around the reference sequence with no key bound; see SkeletonLookups |
| Proxies.WithProperty | connector-test-easy.py:85-92 | one `addproperty` makes `inSequence` one longer, with the property node at the head and the binding appended to the children of the bound tag, one place further on, whose tag is unchanged |
| Proxies.WithPropertyElsewhere | connector-test-easy.py:85-92 | every other element of `inSequence` is unchanged, one place further on |
| Proxies.BindInitKey | connector-test-easy.py:73-74 | binding the next init key with `addproperty` takes the reference sequence for the keys so far to the one for one key more |
| Proxies.BindMethKey | connector-test-easy.py:75-76 | the same for the next method key, whose binding goes under whichever element the method tag lookup found |
| Proxies.PropertyNodesAt | connector-test-easy.py:81-85 | the `i`-th property node is the one for the `i`-th key counted from the end, since each is inserted at position 0 |
| Proxies.BindingsAt | connector-test-easy.py:86-92 | the `i`-th binding under a tag is the one for the `i`-th key bound there |
| Proxies.InSequenceLayout | connector-test-easy.py:73-115 | the finished `inSequence` has `3 + |init| + |meth|` children: property nodes in the reverse of init-then-method order, each with exactly `name = key` and `expression = json-eval($.key)`, no text and no children; then the init tag, the method tag and an empty `respond` |
| Proxies.BindingsLayout | connector-test-easy.py:86-92 | for a method other than `init`, the init tag holds exactly one `<key>{$ctx:key}</key>` per init key and the method tag one per method key, in key order |
| Proxies.AliasedInitTag | connector-test-easy.py:69-71 | for the method `init` the first tag holds the bindings of all keys, init keys first, and the second tag stays empty |
| Proxies.ProxyTreeShape | connector-test-easy.py:104-115 | the document root is `proxy` with the given attributes and exactly one child `target`, which holds `inSequence`, an empty `outSequence` and an empty `faultSequence` |
| Proxies.CatExample | connector-test-easy.py:73-92 | connector `cat`, method `getAllCats`, init key `token`, method keys `limit`, `offset`: properties `offset`, `limit`, `token`, then `cat.init` holding `token` and `cat.getAllCats` holding `limit`, `offset`, then `respond` |
| Proxies.SkeletonLookups | connector-test-easy.py:67-71 | in the skeleton `inSequence` is the first child of `target`, the init lookup finds the first element, the method lookup the first (method `init`) or the second, and the skeleton is the reference sequence with no key bound |
| Proxies.Proxy.Xml | connector-test-easy.py:66-78 | the document is a `proxy` root carrying the copied attributes, whose one child `target` holds the current `inSequence` |
| Proxies.ParseSkeleton | connector-test-easy.py:67-71 | the three lookups on the parsed skeleton give the reference sequence with no key bound, the init tag at its head and the method tag at the head (method `init`) or one place on |
| Proxies.KeyedPositions | connector-test-easy.py:73-76 | once every key is bound the init tag stands right after the property nodes and the method tag on it (method `init`) or right after it |
| Proxies.Proxy.constructor | connector-test-easy.py:56-78 | applies the overrides to the shared map, copies it onto the root, and leaves `inSequence` equal to the reference sequence for the given keys, with the two tag positions after the property nodes |
| Proxies.Proxy.AddProperty | connector-test-easy.py:80-92 | puts the key's property node at the head of `inSequence` and appends its binding under the init or the method tag; both tag positions move up by one and still hold the elements the init and method tag names found |
| Proxies.Proxy.AddInitProperties | connector-test-easy.py:73-74 | the loop over the init keys takes the skeleton to the reference sequence for those keys |
| Proxies.Proxy.AddMethProperties | connector-test-easy.py:75-76 | the loop over the method keys takes the sequence for the init keys to the one for init and method keys |
| Proxies.SuccessiveProxies | connector-test-easy.py:62-66 | of two proxies built one after the other, the second's root carries the first's accepted overrides unless itself overriding them, unknown names never appear, and the first keeps the attributes it copied |
| Cli.NameOverride | connector-test-easy.py:147 | the entry point overrides only `name`, with `<connector>_<method>` |
| Cli.ProxyCommandAsWritten | connector-test-easy.py:139-147 | the call as written builds a proxy whose connector is the method name and whose method is the connector name |
| Cli.ProxyCommand | connector-test-easy.py:139-147 | with the arguments in declared order the tags are `<connector>.init` and `<connector>.<method>` and the proxy is named `<connector>_<method>` |
| Cli.SwappedTagNames | connector-test-easy.py:142-147 | for a data file `<method>.json`, the call as written yields the tags `<method>.init` and `<method>.<connector>`, the declared order `<connector>.init` and `<connector>.<method>`; the init tags differ whenever connector and method do |

## Findings

| source | as written | input that shows it | evidently intended | confidence | as-written member | corrected member |
|---|---|---|---|---|---|---|
| connector-test-easy.py:142-147 | `Proxy(conn_name, meth_name, ...)` is called positionally against the declared order `(meth_name, conn_name, ...)` (line 56), so connector and method swap places | connector `cat`, data file `getAllCats.json`: the tags come out as `getAllCats.init` and `getAllCats.cat` while the proxy is named `cat_getAllCats` | tags `cat.init` and `cat.getAllCats` | high; not executed | Cli.ProxyCommandAsWritten | Cli.ProxyCommand |

## Left out

- The command line (`argparse`), reading `init.json` and the data file (`parsejson`), printing, and the HTTP branch, which is only `pass`: they are input and output around the builder; the key lists, the connector name and the data file name are parameters.
- `randword` and the random default name: the drawn word is the parameter of `SharedAttribs`'s constructor.
- `toprettyxml` and `_indention`: serialisation is library code; the model stops at the tree.
- Parsing the `_bodybase` text with `ET.fromstring`: the model builds the fixed skeleton for any connector and method name. In the source, a name that does not make a valid XML tag name (an empty connector, a space) makes that parse raise. A name holding markup parses into a different skeleton: for connector `a/><b` the lookups return `None`, so `addproperty` raises on the first key; for method `x a="1"` the lookup at line 71 itself raises, before any key is bound.
- `find` takes an ElementPath expression; the model treats its argument as a plain tag name, which differs for names holding `/`, `[`, `@`, `*`, `=` or whitespace (the markup cases above among them).
- XML escaping and the validity of keys as tag names.
- Element objects and their identity: the tree is a value, `inSequence`'s children are a sequence field of `Proxy`, and the `_init_tag` / `_meth_tag` references are positions in it. `Proxy.Xml` gives the document from those fields, so the body counts as attached from the start; in the source it is attached at the end of the constructor, through a reference, and nothing can observe the difference.
- The order of attributes and of dictionary iteration: maps are unordered, and the override loop's result does not depend on its order.
- `addproperty` with a kind other than `Init` or `Meth`, which fails in the source on `ET.SubElement(None, ...)`: `PropKind` has only those two values.
- Element `tail` text, which the builder never sets.
