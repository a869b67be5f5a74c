/**
 The stub held against what is assumed of suppliers: every answer it gives is one a supplier may
 give, except for `out of stock` about a request it has booked.
 */
module StubAsSupplier {
  import opened Base
  import opened Suppliers
  import opened SupplierStub

  // The client's reading of an answer that arrived in time.
  function Reply(a: Answer): IssueReply {
    match a
    case AnswerOk(code) => OkCode(code)
    case AnswerOutOfStock => NoneInStock
    case AnswerInternalError => ServerError
    case AnswerRateLimited => RateLimited(0)
  }

  // This supplier's entries are those of its stub.
  ghost predicate Mirrors(shelf: Shelf, supplier: string, book: map<string, string>) {
    forall r :: ((supplier, r) in shelf.book <==> r in book) && (r in book ==> shelf.book[(supplier, r)] == book[r])
  }

  // The shelf once the stub's book has become this.
  function Restocked(shelf: Shelf, supplier: string, requestId: string, book: map<string, string>): Shelf {
    if requestId in book then shelf.(book := shelf.book[(supplier, requestId) := book[requestId]]) else shelf
  }

  ghost predicate Served(shelf: Shelf, k: Entry, reply: IssueReply, shelf': Shelf) {
    exists d :: Serve(shelf, k, 0, d) == (reply, shelf')
  }

  // One call, answered in time or not.
  method Call(stub: Stub, shelf: Shelf, supplier: string, requestId: string, sku: string, admitted: bool, hangs: bool, d: Draws)
    returns (reply: IssueReply, shelf': Shelf)
    requires stub.Valid() && Mirrors(shelf, supplier, stub.book)
    requires d.duplicate.Some? ==> exists q :: q in stub.book && stub.book[q] == d.duplicate.value
    modifies stub`book, stub`keys, stub`honest
    ensures stub.Valid() && Mirrors(shelf', supplier, stub.book)
    ensures Served(shelf, (supplier, requestId), reply, shelf') <==> !(reply.NoneInStock? && requestId in stub.book)
    ensures reply.NoneInStock? && requestId in stub.book <==>
            !hangs && admitted && !d.fails && sku in stub.unavailableSkus && requestId in old(stub.book)
  {
    ghost var before := stub.book;
    var answer := stub.Issue(requestId, sku, admitted, d);
    var k := (supplier, requestId);
    shelf' := Restocked(shelf, supplier, requestId, stub.book);
    reply := Reply(answer);
    if hangs {
      reply, shelf' := NoResponse, shelf'.(inFlight := shelf'.inFlight + {k});
    }
    AsDrawn(shelf, supplier, requestId, before, stub.book, reply, shelf');
  }

  lemma AsDrawn(
    shelf: Shelf, supplier: string, requestId: string, book: map<string, string>, book': map<string, string>,
    reply: IssueReply, shelf': Shelf)
    requires Mirrors(shelf, supplier, book)
    requires book' == book || (requestId in book' && book' == book[requestId := book'[requestId]])
    requires requestId in book ==> book'[requestId] == book[requestId]
    requires reply.NoneInStock? || reply.RateLimited? ==> book' == book
    requires !reply.Unreachable? && !reply.BrokenConnection?
    requires var after := Restocked(shelf, supplier, requestId, book');
             shelf' == if reply.NoResponse? then after.(inFlight := after.inFlight + {(supplier, requestId)}) else after
    ensures Mirrors(shelf', supplier, book')
    ensures Served(shelf, (supplier, requestId), reply, shelf') <==> !(reply.NoneInStock? && requestId in book')
  {
    var k := (supplier, requestId);
    var books := if requestId in book' then Some(book'[requestId]) else None;
    var d := Draw(true, 0, reply, books, true, false, false, None, false);
    if requestId in book {
      assert shelf.book[k := book'[requestId]] == shelf.book;
    }
    if !(reply.NoneInStock? && requestId in book') {
      assert Serve(shelf, k, 0, d) == (reply, shelf');
    }
  }
}
