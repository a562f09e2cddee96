/**
 * The proxy branch of the entry point: the method name is the data file's
 * name without `.json`, and the proxy is named `<connector>_<method>`.
 * Argument parsing, reading the JSON files and printing are not modelled;
 * the key lists and the shared attribute defaults are parameters.
 */
module Cli {
  import opened Xml
  import opened Filenames
  import opened Proxies

  /** The name override the entry point passes: `<connector>_<method>`. */
  function NameOverride(connName: string, methName: string): (m: map<string, string>)
    ensures m.Keys == {"name"} && m["name"] == connName + "_" + methName
  {
    map["name" := connName + "_" + methName]
  }

  /**
   * The call as written: `Proxy(conn_name, meth_name, ...)` against the
   * declared order `(meth_name, conn_name, ...)`, so the connector lands in
   * the method slot and the method in the connector slot.
   */
  method ProxyCommandAsWritten(connName: string, dataFilename: string, init: seq<string>, meth: seq<string>,
                               shared: SharedAttribs)
    returns (p: Proxy)
    requires shared.Valid()
    modifies shared
    ensures p.connName == RmExt(dataFilename) && p.methName == connName
    ensures p.wrap == InSequence(RmExt(dataFilename), connName, init, meth)
    ensures p.Xml().attrib == Overridden(old(shared.attribs), NameOverride(connName, RmExt(dataFilename)))
  {
    var methName := RmExt(dataFilename);
    p := new Proxy(connName, methName, init, meth, NameOverride(connName, methName), shared);
  }

  /**
   * The call with the arguments in the declared order: the tags are named
   * after the connector, the proxy after connector and method.
   */
  method ProxyCommand(connName: string, dataFilename: string, init: seq<string>, meth: seq<string>,
                      shared: SharedAttribs)
    returns (p: Proxy)
    requires shared.Valid()
    modifies shared
    ensures p.connName == connName && p.methName == RmExt(dataFilename)
    ensures p.wrap == InSequence(connName, RmExt(dataFilename), init, meth)
    ensures var n := |init| + |meth|;
      && p.wrap[n].tag == connName + ".init"
      && p.wrap[n + 1].tag == connName + "." + RmExt(dataFilename)
    ensures "name" in p.Xml().attrib && p.Xml().attrib["name"] == connName + "_" + RmExt(dataFilename)
  {
    var methName := RmExt(dataFilename);
    p := new Proxy(methName, connName, init, meth, NameOverride(connName, methName), shared);
    InSequenceLayout(connName, methName, init, meth);
    assert "name" in RecognisedAttribs;
  }

  /**
   * For a data file `<method>.json` whose method name has no dot (connector
   * `cat`, file `getAllCats.json`, say), the call as written names the tags
   * `<method>.init` and `<method>.<connector>` (`getAllCats.init`,
   * `getAllCats.cat`) where the declared order gives `<connector>.init` and
   * `<connector>.<method>` (`cat.init`, `cat.getAllCats`); the two differ
   * whenever connector and method do.
   */
  lemma {:induction false} SwappedTagNames(connName: string, methName: string)
    requires forall i :: 0 <= i < |methName| ==> methName[i] != '.'
    ensures var w := InSequence(RmExt(methName + Ext), connName, [], []);
      w[0].tag == methName + ".init" && w[1].tag == methName + "." + connName
    ensures var w := InSequence(connName, RmExt(methName + Ext), [], []);
      w[0].tag == connName + ".init" && w[1].tag == connName + "." + methName
    ensures connName != methName ==> InitTagName(methName) != InitTagName(connName)
  {
    NoDotNoExt(methName);
    RmExtRoundTrip(methName);
    InSequenceLayout(methName, connName, [], []);
    InSequenceLayout(connName, methName, [], []);
    assert methName == InitTagName(methName)[..|methName|];
    assert connName == InitTagName(connName)[..|connName|];
  }
}
