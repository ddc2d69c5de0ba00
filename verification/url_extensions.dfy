/** The `URL` extension of `URL+NetworkClient.swift`: appending a parameter
    dictionary or a list of query items to a URL. */
module UrlExtensions {
  import opened Results
  import opened Foundation
  import opened NetworkClient
  import opened Errors

  /** The query items made from a parameter list, one per pair, in order. */
  function ItemsOf(p: seq<(string, string)>): (items: seq<QueryItem>)
    ensures |items| == |p|
    ensures forall i :: 0 <= i < |p| ==> items[i] == QueryItem(p[i].0, p[i].1)
  {
    if |p| == 0 then [] else [QueryItem(p[0].0, p[0].1)] + ItemsOf(p[1..])
  }

  /** How many of `items` are named `name`. */
  function CountNamed(items: seq<QueryItem>, name: string): (n: nat)
  {
    if |items| == 0 then 0
    else (if items[0].name == name then 1 else 0) + CountNamed(items[1..], name)
  }

  /** `appendingQueryItems`: an empty list leaves the URL as it is; otherwise
      the new items follow the existing ones, unless the URL cannot be split
      into components (`invalidURL` with the URL's absolute string) or the
      components cannot be turned back into a URL (`invalidURL` with the empty
      string: the fallback `components.url?.absoluteString ?? ""` only runs
      when `components.url` is nil). */
  function AppendingQueryItems(url: Url, items: seq<QueryItem>, env: Env): (r: Result<Url, Error>)
    ensures items == [] ==> r == Ok(url)
    ensures items != [] ==>
      (r.Ok? <==> env.decomposes(url) && env.recomposes(Url(url.base, url.queryItems + items)))
    ensures r.Ok? ==> r.value.base == url.base && r.value.queryItems == url.queryItems + items
    ensures r.Err? && !env.decomposes(url) ==> r.error == Network(InvalidURL(env.absoluteString(url)))
    ensures r.Err? && env.decomposes(url) ==> r.error == Network(InvalidURL(""))
  {
    if items == [] then Ok(url)
    else if !env.decomposes(url) then Err(Network(InvalidURL(env.absoluteString(url))))
    else
      var candidate := Url(url.base, url.queryItems + items);
      if env.recomposes(candidate) then Ok(candidate) else Err(Network(InvalidURL("")))
  }

  /** `appendingParameters`: an empty dictionary leaves the URL as it is;
      otherwise each pair becomes one query item appended after the existing
      ones. */
  function AppendingParameters(url: Url, parameters: Parameters, env: Env): (r: Result<Url, Error>)
    ensures |parameters| == 0 ==> r == Ok(url)
    ensures r.Ok? ==> r.value.base == url.base && r.value.queryItems == url.queryItems + ItemsOf(parameters)
    ensures |parameters| > 0 ==>
              (r.Ok? <==> env.decomposes(url) && env.recomposes(Url(url.base, url.queryItems + ItemsOf(parameters))))
    ensures r.Err? && !env.decomposes(url) ==> r.error == Network(InvalidURL(env.absoluteString(url)))
    ensures r.Err? && env.decomposes(url) ==> r.error == Network(InvalidURL(""))
    ensures r.Err? ==> r.error.Network? && r.error.network.InvalidURL?
  {
    if |parameters| == 0 then Ok(url) else AppendingQueryItems(url, ItemsOf(parameters), env)
  }

  /** A successful append keeps the existing items as a prefix, does not merge
      duplicate names, and grows the query by exactly the appended items. */
  lemma AppendKeepsExistingItems(url: Url, items: seq<QueryItem>, env: Env)
    requires AppendingQueryItems(url, items, env).Ok?
    ensures var q := AppendingQueryItems(url, items, env).value.queryItems;
            && |q| == |url.queryItems| + |items|
            && q[..|url.queryItems|] == url.queryItems
            && q[|url.queryItems|..] == items
            && forall name :: CountNamed(q, name) == CountNamed(url.queryItems, name) + CountNamed(items, name)
  {
    var q := AppendingQueryItems(url, items, env).value.queryItems;
    forall name
      ensures CountNamed(q, name) == CountNamed(url.queryItems, name) + CountNamed(items, name)
    {
      CountNamedConcat(url.queryItems, items, name);
    }
  }

  lemma {:induction false} CountNamedConcat(a: seq<QueryItem>, b: seq<QueryItem>, name: string)
    ensures CountNamed(a + b, name) == CountNamed(a, name) + CountNamed(b, name)
  {
    if |a| > 0 {
      assert (a + b)[1..] == a[1..] + b;
      CountNamedConcat(a[1..], b, name);
    } else {
      assert a + b == b;
    }
  }

  /** Appending two lists one after the other, when both steps succeed, is
      the same as appending their concatenation at once. */
  lemma AppendInTwoStepsIsAppendOnce(url: Url, first: seq<QueryItem>, second: seq<QueryItem>, env: Env)
    requires AppendingQueryItems(url, first, env).Ok?
    requires AppendingQueryItems(AppendingQueryItems(url, first, env).value, second, env).Ok?
    ensures AppendingQueryItems(url, first + second, env)
         == AppendingQueryItems(AppendingQueryItems(url, first, env).value, second, env)
  {
    var mid := AppendingQueryItems(url, first, env).value;
    if first == [] {
      assert first + second == second;
    } else if second == [] {
      assert first + second == first;
    } else {
      assert url.queryItems + (first + second) == mid.queryItems + second;
    }
  }

  /** A parameter list yields exactly one query item per key, carrying that
      key's value; a name that is not a key yields none. */
  lemma {:induction false} OneItemPerParameter(p: seq<(string, string)>, name: string)
    requires DistinctKeys(p)
    ensures forall i :: 0 <= i < |p| && p[i].0 == name ==> CountNamed(ItemsOf(p), name) == 1
    ensures (forall i :: 0 <= i < |p| ==> p[i].0 != name) ==> CountNamed(ItemsOf(p), name) == 0
    ensures forall i, j :: 0 <= i < |p| && 0 <= j < |p| && p[i].0 == name && ItemsOf(p)[j].name == name
              ==> ItemsOf(p)[j].value == p[i].1
  {
    if |p| > 0 {
      var rest := p[1..];
      assert DistinctKeys(rest) by {
        forall i, j | 0 <= i < j < |rest| ensures rest[i].0 != rest[j].0 {
          assert rest[i] == p[i + 1] && rest[j] == p[j + 1];
        }
      }
      OneItemPerParameter(rest, name);
      assert ItemsOf(p)[1..] == ItemsOf(rest);
      if p[0].0 == name {
        forall i | 1 <= i < |p| ensures p[i].0 != name {
          assert p[0].0 != p[i].0;
        }
        assert forall i :: 0 <= i < |rest| ==> rest[i].0 != name by {
          forall i | 0 <= i < |rest| ensures rest[i].0 != name {
            assert rest[i] == p[i + 1];
          }
        }
      } else {
        forall i | 0 <= i < |p| && p[i].0 == name ensures CountNamed(ItemsOf(p), name) == 1 {
          assert rest[i - 1] == p[i];
        }
      }
    }
  }

  /** Appending a one-entry dictionary appends exactly that one item, so the
      order question of larger dictionaries does not arise. */
  lemma AppendSingleParameter(url: Url, key: string, value: string, env: Env)
    ensures AppendingParameters(url, [(key, value)], env)
         == AppendingQueryItems(url, [QueryItem(key, value)], env)
  {
    assert ItemsOf([(key, value)]) == [QueryItem(key, value)];
  }
}
