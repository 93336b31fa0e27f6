/** Extensionality of sets and maps, for any type of elements. */
module Extension {

  lemma Any<T>(s: set<T>) returns (x: T)
    requires s != {}
    ensures x in s
  {
    x :| x in s;
  }

  lemma SomeDifference<K, V>(a: map<K, V>, b: map<K, V>) returns (k: K)
    requires a != b
    ensures (k in a) != (k in b) || (k in a && k in b && a[k] != b[k])
  {
    if a.Keys != b.Keys {
      k := Any((a.Keys - b.Keys) + (b.Keys - a.Keys));
    } else {
      k :| k in a && a[k] != b[k];
    }
  }
}
