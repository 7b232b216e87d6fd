/** The two nextSearch functions over a copied URLSearchParams object. */
module SearchParams {
  import opened Wrappers
  import opened SearchFilters

  class URLSearchParams {
    var list: Query

    /** A copy. */
    constructor (init: Query)
      ensures list == init
    {
      list := init;
    }

    method DeleteAll(name: string)
      modifies this
      ensures list == Delete(old(list), name)
    {
      var out := [];
      for i := 0 to |list|
        invariant list == old(list) && Delete(list, name) == out + Delete(list[i..], name)
      {
        assert list[i..][1..] == list[i + 1..];
        if list[i].name != name {
          out := out + [list[i]];
        }
      }
      assert list[|list|..] == [];
      list := out;
    }

    method SetOne(name: string, value: string)
      modifies this
      ensures list == Set(old(list), name, value)
    {
      var i, before := 0, [];
      while i < |list| && list[i].name != name
        invariant i <= |list| && list == old(list) && before == list[..i]
        invariant Set(list, name, value) == before + Set(list[i..], name, value)
      {
        assert list[i..][1..] == list[i + 1..];
        before := before + [list[i]];
        i := i + 1;
      }
      if i == |list| {
        assert list[i..] == [];
        list := before + [Param(name, value)];
        return;
      }
      assert list[i..][1..] == list[i + 1..];
      var rest := new URLSearchParams(list[i + 1..]);
      rest.DeleteAll(name);
      list := before + ([Param(name, value)] + rest.list);
    }
  }

  method NextInboxSearch(current: URLSearchParams, next: InboxFilters) returns (out: URLSearchParams)
    requires next.topicId.Some? ==> next.topicId.value >= 0
    ensures fresh(out) && out.list == NextInbox(current.list, next)
  {
    out := new URLSearchParams(current.list);
    if next.state == All {
      out.SetOne("state", "all");
    } else {
      out.DeleteAll("state");
    }
    if next.topicId.Some? {
      out.SetOne("topic", Print(next.topicId.value));
    } else {
      out.DeleteAll("topic");
    }
  }

  method NextLibrarySearch(current: URLSearchParams, next: FilterParams) returns (out: URLSearchParams)
    ensures fresh(out) && out.list == NextLibrary(current.list, next)
  {
    out := new URLSearchParams(current.list);
    if next.state.Some? {
      out.SetOne("state", StateName(next.state.value));
    } else {
      out.DeleteAll("state");
    }
    if next.favorite == Some(true) {
      out.SetOne("favorite", "true");
    } else {
      out.DeleteAll("favorite");
    }
  }
}
