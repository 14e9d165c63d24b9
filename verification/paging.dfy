/**
 * The `pages` iterator of hpOneView/common.py: it walks the remaining pages
 * of a paged listing, asking the connection for the next page while the
 * connection says there is one, and remembers the page it returned last.
 */
module Paging {
  import opened Values

  /**
   * The part of the connection `pages` uses. The connection itself is not
   * part of this model; here it holds the pages still to be fetched, and has
   * a next page (`_nextPage is not None`) exactly when one remains.
   */
  class PageSource {
    var pending: seq<Value>

    constructor (pages: seq<Value>)
      ensures pending == pages
    {
      pending := pages;
    }

    predicate HasNextPage()
      reads this
    {
      pending != []
    }

    /** `getNextPage()`: hands out the next page. */
    method GetNextPage() returns (page: Value)
      requires HasNextPage()
      modifies this
      ensures page == old(pending[0]) && pending == old(pending[1..])
    {
      page := pending[0];
      pending := pending[1..];
    }
  }

  class Pages {
    const con: PageSource
    var currentPage: Value

    constructor (page: Value, connection: PageSource)
      ensures con == connection && currentPage == page
    {
      con := connection;
      currentPage := page;
    }

    /**
     * `__next__`: the next page, which also becomes `currentPage`, or
     * `None` for StopIteration once the connection has no next page, in
     * which case nothing changes.
     */
    method Next() returns (r: Option<Value>)
      modifies this, con
      ensures old(con.pending) == [] ==>
                r == None && currentPage == old(currentPage) && con.pending == []
      ensures old(con.pending) != [] ==>
                r == Some(old(con.pending)[0]) && currentPage == r.value &&
                con.pending == old(con.pending)[1..]
    {
      if con.HasNextPage() {
        currentPage := con.GetNextPage();
        r := Some(currentPage);
      } else {
        r := None;
      }
    }
  }

  /**
   * `list(pages)`: iterating to exhaustion yields exactly the pages the
   * connection still held, in order, and leaves the last one current.
   */
  method Collect(p: Pages) returns (pages: seq<Value>)
    modifies p, p.con
    ensures pages == old(p.con.pending)
    ensures p.con.pending == []
    ensures p.currentPage == if pages == [] then old(p.currentPage) else pages[|pages| - 1]
  {
    pages := [];
    var r := p.Next();
    while r.Some?
      invariant r.Some? ==> old(p.con.pending) == pages + [r.value] + p.con.pending &&
                            p.currentPage == r.value
      invariant r.None? ==> pages == old(p.con.pending) && p.con.pending == [] &&
                            p.currentPage == if pages == [] then old(p.currentPage) else pages[|pages| - 1]
      decreases |p.con.pending|, r.Some?
    {
      pages := pages + [r.value];
      r := p.Next();
    }
  }
}
