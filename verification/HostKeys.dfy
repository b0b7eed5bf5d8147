/** The texts under which the registry caches its entries, and why pairs can stand for them. */
module HostKeys {
  import opened Messages

  function HostKey(ns: Id, host: Id): string {
    "host:registry:" + ns + ":" + host
  }

  function TokenKey(token: string): string {
    "host:token:" + token
  }

  function IndexKey(ns: Id): string {
    "host:index:" + ns
  }

  function Pair(ns: Id, host: Id): string {
    ns + ":" + host
  }

  lemma KeyIsPair(ns: Id, host: Id)
    ensures HostKey(ns, host) == "host:registry:" + Pair(ns, host)
  {
    assert "host:registry:" + ns + ":" + host == "host:registry:" + (ns + ":" + host);
  }

  lemma SameKeySamePair(ns: Id, host: Id, ns': Id, host': Id)
    ensures HostKey(ns, host) == HostKey(ns', host') <==> Pair(ns, host) == Pair(ns', host')
  {
    KeyIsPair(ns, host);
    KeyIsPair(ns', host');
    var prefix := "host:registry:";
    assert (prefix + Pair(ns, host))[|prefix|..] == Pair(ns, host);
    assert (prefix + Pair(ns', host'))[|prefix|..] == Pair(ns', host');
  }

  /** The namespace ends at the only colon there is. */
  lemma OnlyColon(ns: Id, host: Id, i: nat)
    requires ':' !in ns && ':' !in host && i < |Pair(ns, host)| && Pair(ns, host)[i] == ':'
    ensures i == |ns|
  {
    LastColon(ns, host);
    assert forall j :: 0 <= j < |ns| ==> Pair(ns, host)[j] == ns[j];
  }

  lemma LastColon(ns: Id, host: Id)
    requires ':' !in host
    ensures forall i :: |ns| < i < |Pair(ns, host)| ==> Pair(ns, host)[i] != ':'
  {
    forall i | |ns| < i < |Pair(ns, host)| ensures Pair(ns, host)[i] != ':' {
      assert Pair(ns, host)[i] == host[i - |ns| - 1];
    }
  }

  lemma PairParts(ns: Id, host: Id)
    ensures Pair(ns, host)[|ns|] == ':' && Pair(ns, host)[..|ns|] == ns && Pair(ns, host)[|ns| + 1..] == host
  {
  }

  lemma PairUnique(ns: Id, host: Id, ns': Id, host': Id)
    requires ':' !in ns && ':' !in host && Pair(ns, host) == Pair(ns', host')
    ensures ns == ns' && host == host'
  {
    PairParts(ns, host);
    PairParts(ns', host');
    OnlyColon(ns, host, |ns'|);
  }

  ghost predicate SharesKey(ns: Id, host: Id, ns': Id, host': Id) {
    (ns', host') != (ns, host) && HostKey(ns', host') == HostKey(ns, host)
  }

  /** A pair that shares the key, when there is a colon to move the border to. */
  lemma OtherPair(ns: Id, host: Id) returns (ns': Id, host': Id)
    requires ':' in ns || ':' in host
    ensures SharesKey(ns, host, ns', host')
  {
    if ':' in ns {
      var i :| 0 <= i < |ns| && ns[i] == ':';
      ns', host' := ns[..i], ns[i + 1..] + ":" + host;
      assert ns == ns[..i] + ":" + ns[i + 1..];
      assert Pair(ns', host') == Pair(ns, host);
    } else {
      var i :| 0 <= i < |host| && host[i] == ':';
      ns', host' := ns + ":" + host[..i], host[i + 1..];
      assert host == host[..i] + ":" + host[i + 1..];
      assert Pair(ns', host') == Pair(ns, host);
    }
    SameKeySamePair(ns, host, ns', host');
  }

  /** A host shares its key with another exactly when its namespace or its id has a colon. */
  lemma KeyIsUnique(ns: Id, host: Id)
    ensures (exists ns', host' :: SharesKey(ns, host, ns', host')) <==> ':' in ns || ':' in host
  {
    if ':' in ns || ':' in host {
      var ns', host' := OtherPair(ns, host);
    } else {
      forall ns', host' ensures !SharesKey(ns, host, ns', host') {
        SameKeySamePair(ns, host, ns', host');
        if Pair(ns, host) == Pair(ns', host') { PairUnique(ns, host, ns', host'); }
      }
    }
  }

  /** Hosts whose ids have no colon never share a key, whatever their namespaces. */
  lemma HostKeyInjective(ns: Id, host: Id, ns': Id, host': Id)
    requires ':' !in host && ':' !in host' && HostKey(ns, host) == HostKey(ns', host')
    ensures ns == ns' && host == host'
  {
    SameKeySamePair(ns, host, ns', host');
    PairParts(ns, host);
    PairParts(ns', host');
    LastColon(ns, host);
    LastColon(ns', host');
  }

  /** Two hosts that share a key. */
  lemma HostKeysCollide()
    ensures SharesKey("a", "b:c", "a:b", "c")
  {
    assert Pair("a", "b:c") == Pair("a:b", "c");
    SameKeySamePair("a", "b:c", "a:b", "c");
  }

  /** Hosts, tokens, indexes and the list of namespaces never share a key. */
  lemma FamiliesApart(ns: Id, host: Id, token: string, ns': Id)
    ensures HostKey(ns, host) != TokenKey(token) && HostKey(ns, host) != IndexKey(ns') && TokenKey(token) != IndexKey(ns')
    ensures "host:namespaces" != HostKey(ns, host) && "host:namespaces" != TokenKey(token) && "host:namespaces" != IndexKey(ns')
  {
    assert HostKey(ns, host)[5] == 'r' && TokenKey(token)[5] == 't' && IndexKey(ns')[5] == 'i' && "host:namespaces"[5] == 'n';
  }
}
