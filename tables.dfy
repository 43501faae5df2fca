/**
 * Generic facts about the two catalog dictionaries: finding a command name
 * among the catalog's names, and rewriting arguments through a value
 * mapping.
 */
module Tables {
  import opened Wrappers

  /** The position of the first name equal to `name`. */
  function FirstIndex(names: seq<string>, name: string): (r: Option<nat>)
    ensures r.Some? ==> r.value < |names| && names[r.value] == name && name !in names[..r.value]
    ensures r.None? <==> name !in names
  {
    if names == [] then None
    else if names[0] == name then Some(0)
    else match FirstIndex(names[1..], name)
      case None => None
      case Some(i) => Some(i + 1)
  }

  /**
   * The position of the last name equal to `name`: what a scan that
   * overwrites its candidate on every match is left holding.
   */
  function LastIndex(names: seq<string>, name: string): (r: Option<nat>)
    ensures r.Some? ==> r.value < |names| && names[r.value] == name && name !in names[r.value + 1..]
    ensures r.None? <==> name !in names
  {
    if names == [] then None
    else if names[|names| - 1] == name then Some(|names| - 1)
    else LastIndex(names[..|names| - 1], name)
  }

  /** Extending the scanned prefix by one name either finds `name` there or keeps the earlier answer. */
  lemma LastIndexExtend(names: seq<string>, name: string, i: nat)
    requires i < |names|
    ensures LastIndex(names[..i + 1], name) == if names[i] == name then Some(i) else LastIndex(names[..i], name)
  {
    assert names[..i + 1][..i] == names[..i];
  }

  predicate Distinct(names: seq<string>) {
    forall i, j | 0 <= i < j < |names| :: names[i] != names[j]
  }

  /** With distinct names, the first and the last match are the same entry. */
  lemma LastIsFirst(names: seq<string>, name: string)
    requires Distinct(names)
    ensures LastIndex(names, name) == FirstIndex(names, name)
  {
  }

  /**
   * Rewrites each argument to its code under `mapping`, in order, stopping
   * at the first argument the mapping does not know, which is returned as
   * the failure.
   */
  function MapArgs(mapping: map<string, string>, raw: seq<string>): (r: Result<seq<string>, string>)
    ensures r.Success? ==> |r.value| == |raw|
    ensures r.Failure? ==> r.error in raw && r.error !in mapping
  {
    if raw == [] then Success([])
    else if raw[0] !in mapping then Failure(raw[0])
    else match MapArgs(mapping, raw[1..])
      case Failure(a) => Failure(a)
      case Success(rest) => Success([mapping[raw[0]]] + rest)
  }

  /**
   * Mapping succeeds exactly when every argument is a key; the result then
   * has one code per argument, in the same order.
   */
  lemma {:induction false} MapArgsSuccess(mapping: map<string, string>, raw: seq<string>)
    ensures MapArgs(mapping, raw).Success? <==> forall i | 0 <= i < |raw| :: raw[i] in mapping
    ensures MapArgs(mapping, raw).Success? ==>
      |MapArgs(mapping, raw).value| == |raw| &&
      forall i | 0 <= i < |raw| :: MapArgs(mapping, raw).value[i] == mapping[raw[i]]
  {
    if raw != [] {
      MapArgsSuccess(mapping, raw[1..]);
      if raw[0] in mapping && MapArgs(mapping, raw[1..]).Success? {
        var rest := MapArgs(mapping, raw[1..]).value;
        assert forall i | 1 <= i < |raw| :: raw[i] == raw[1..][i - 1];
        assert forall i | 1 <= i < |raw| :: ([mapping[raw[0]]] + rest)[i] == rest[i - 1];
      } else if raw[0] in mapping {
        var i :| 0 <= i < |raw[1..]| && raw[1..][i] !in mapping;
        assert raw[i + 1] !in mapping;
      }
    }
  }

  /** The arguments after the first `k` have been rewritten to their codes and the rest not yet. */
  function MappedUpTo(mapping: map<string, string>, raw: seq<string>, k: nat): (r: seq<string>)
    requires k <= |raw| && forall i | 0 <= i < k :: raw[i] in mapping
    ensures |r| == |raw| && r[k..] == raw[k..]
    ensures forall i | 0 <= i < k :: r[i] == mapping[raw[i]]
  {
    seq(|raw|, i requires 0 <= i < |raw| => if i < k then mapping[raw[i]] else raw[i])
  }

  /** Mapping fails on the first argument that is not a key, when every argument before it is one. */
  lemma {:induction false} MapArgsFirstUnknown(mapping: map<string, string>, raw: seq<string>, k: nat)
    requires k < |raw| && raw[k] !in mapping
    requires forall i | 0 <= i < k :: raw[i] in mapping
    ensures MapArgs(mapping, raw) == Failure(raw[k])
  {
    if k > 0 {
      MapArgsFirstUnknown(mapping, raw[1..], k - 1);
    }
  }
}
