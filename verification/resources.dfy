/** A resource: one requested optimizer worker slot. */
module Resources {

  /** `resourceId` is empty until a backend or the caller assigns one (a
      null id and an empty id are treated alike by every operation here).
      `properties` is both the caller's input configuration and, after a
      request, the backend's startup facts. */
  datatype Resource = Resource(
    resourceId: string,
    groupName: string,
    threadCount: int,
    properties: map<string, string>)

  /** `m.putAll(s)`: every entry of `s` is added or overwrites the entry of
      `m` with the same key; no key of `m` is removed. */
  function PutAll(m: map<string, string>, s: map<string, string>): (r: map<string, string>)
    ensures r.Keys == m.Keys + s.Keys
    ensures forall k :: k in s ==> r[k] == s[k]
    ensures forall k :: k in m && k !in s ==> r[k] == m[k]
  {
    m + s
  }

  /** The merged map is the smallest one that extends `s` and agrees with
      `m` off the keys of `s`: any map with those two properties and no other
      keys is the merge. */
  lemma PutAllUnique(m: map<string, string>, s: map<string, string>, r: map<string, string>)
    requires r.Keys == m.Keys + s.Keys
    requires forall k :: k in s ==> r[k] == s[k]
    requires forall k :: k in m && k !in s ==> r[k] == m[k]
    ensures r == PutAll(m, s)
  {
  }
}
