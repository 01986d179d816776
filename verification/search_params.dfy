/** The query of a URL as an ordered list of name/value pairs, with the
    `get` and `set` methods of `URLSearchParams` as the WHATWG URL Standard
    defines them. */
module SearchParams {
  import opened Common

  type Params = seq<(string, string)>

  /** Names in the list. */
  function Names(ps: Params): set<string> {
    set i | 0 <= i < |ps| :: ps[i].0
  }

  /** `get(name)`: the value of the first pair with that name, if any. */
  function Get(ps: Params, name: string): Option<string>
    decreases |ps|
  {
    if ps == [] then None
    else if ps[0].0 == name then Some(ps[0].1)
    else Get(ps[1..], name)
  }

  /** The pairs whose name is not `name`, in order. */
  function Without(ps: Params, name: string): (r: Params)
    ensures name !in Names(r)
    ensures Count(r, name) == 0
    ensures forall other :: other != name ==> Get(r, other) == Get(ps, other)
    decreases |ps|
  {
    if ps == [] then []
    else if ps[0].0 == name then Without(ps[1..], name)
    else [ps[0]] + Without(ps[1..], name)
  }

  /** Number of pairs named `name`. */
  function Count(ps: Params, name: string): nat
    decreases |ps|
  {
    if ps == [] then 0 else (if ps[0].0 == name then 1 else 0) + Count(ps[1..], name)
  }

  /** Removing a name that is absent changes nothing. */
  lemma {:induction false} WithoutAbsent(ps: Params, name: string)
    requires name !in Names(ps)
    ensures Without(ps, name) == ps
    decreases |ps|
  {
    if ps != [] {
      assert ps[0].0 in Names(ps);
      assert Names(ps[1..]) <= Names(ps);
      WithoutAbsent(ps[1..], name);
    }
  }

  /** `set(name, value)`: the first pair named `name` takes the new value and
      later pairs of that name are removed; with no such pair, the pair is
      appended at the end. */
  function Set(ps: Params, name: string, value: string): (r: Params)
    ensures Get(r, name) == Some(value)
    ensures Count(r, name) == 1
    ensures forall other :: other != name ==> Get(r, other) == Get(ps, other)
    ensures Without(r, name) == Without(ps, name)
    ensures name !in Names(ps) ==> r == ps + [(name, value)]
    decreases |ps|
  {
    if ps == [] then [(name, value)]
    else if ps[0].0 == name then
      WithoutAbsent(Without(ps[1..], name), name);
      [(name, value)] + Without(ps[1..], name)
    else
      assert Names(ps) == {ps[0].0} + Names(ps[1..]);
      [ps[0]] + Set(ps[1..], name, value)
  }
}
