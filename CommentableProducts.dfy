/** The product that clients can comment on (`ProductoComentable`). It is the
    base product plus an insertion-ordered list of comments holding at most
    one comment per author. Java inheritance becomes composition: the base
    product's attributes live in the `product` object. */
module CommentableProducts {
  import opened JavaInt
  import opened Identifiers
  import opened Results
  import opened Products

  /** A comment (`Comentario`): the identifier of its author (a client), its
      text and its rating. The rating is carried but never checked. */
  datatype Comment = Comment(author: Identifier, text: string, rating: int)

  /** The line that precedes every comment in the rendering. */
  const Decorator: string := "\n===============================================================\n"

  /** Some comment in `comments` has the given author. */
  predicate HasAuthor(comments: seq<Comment>, author: Identifier)
  {
    exists i :: 0 <= i < |comments| && comments[i].author == author
  }

  /** No two comments in `comments` share an author. */
  predicate UniqueAuthors(comments: seq<Comment>)
  {
    forall i, j :: 0 <= i < j < |comments| ==> comments[i].author != comments[j].author
  }

  /** `recuperarComentarios` as a fold: for every comment, in order, the
      decorator followed by that comment's own rendering. */
  function RenderComments(comments: seq<Comment>, render: Comment -> string): (s: string)
    ensures s == [] <==> comments == []
  {
    if comments == [] then []
    else RenderComments(comments[..|comments| - 1], render) + Decorator + render(comments[|comments| - 1])
  }

  /** Rendering distributes over concatenation of comment lists. */
  lemma {:induction false} RenderAppend(a: seq<Comment>, b: seq<Comment>, render: Comment -> string)
    ensures RenderComments(a + b, render) == RenderComments(a, render) + RenderComments(b, render)
    decreases |b|
  {
    if b == [] {
      assert a + b == a;
    } else {
      var n := |b| - 1;
      var ab := a + b;
      assert ab[..|ab| - 1] == a + b[..n];
      assert ab[|ab| - 1] == b[n];
      RenderAppend(a, b[..n], render);
      calc {
        RenderComments(ab, render);
        RenderComments(a + b[..n], render) + Decorator + render(b[n]);
        RenderComments(a, render) + RenderComments(b[..n], render) + Decorator + render(b[n]);
        RenderComments(a, render) + (RenderComments(b[..n], render) + Decorator + render(b[n]));
        RenderComments(a, render) + RenderComments(b, render);
      }
    }
  }

  /** The rendering of a list is the renderings of its comments, one after
      the other, each preceded by the decorator. */
  lemma {:induction false} RenderCons(c: Comment, rest: seq<Comment>, render: Comment -> string)
    ensures RenderComments([c] + rest, render) == Decorator + render(c) + RenderComments(rest, render)
  {
    RenderAppend([c], rest, render);
    assert [c][..0] == [];
  }

  /** Renders a comment as its text alone; one possible `render`. */
  function TextOf(c: Comment): string
  {
    c.text
  }

  /** The rendering is order-sensitive: two comments whose renderings differ
      but have the same length render differently in the two orders. */
  lemma SwappedCommentsRenderDifferently(a: Comment, b: Comment, render: Comment -> string)
    requires render(a) != render(b) && |render(a)| == |render(b)|
    ensures RenderComments([a, b], render) != RenderComments([b, a], render)
  {
    assert [a] + [b] == [a, b] && [b] + [a] == [b, a];
    RenderCons(a, [b], render);
    RenderCons(b, [a], render);
    var k :| 0 <= k < |render(a)| && render(a)[k] != render(b)[k];
    var sa := RenderComments([a, b], render);
    var sb := RenderComments([b, a], render);
    assert sa == Decorator + render(a) + RenderComments([b], render);
    assert sb == Decorator + render(b) + RenderComments([a], render);
    assert sa[|Decorator| + k] == render(a)[k];
    assert sb[|Decorator| + k] == render(b)[k];
  }

  /** The rendering does not determine the comments: one comment whose text
      starts with the decorator renders like two comments by two other
      authors. Both lists keep at most one comment per author, so two
      commentable products with different comment lists can compare equal. */
  lemma RenderingNotInjective(a1: Identifier, a2: Identifier, rating: int)
    requires a1 != a2
    ensures var one := [Comment(a1, Decorator + "x", rating)];
            var two := [Comment(a1, "", rating), Comment(a2, "x", rating)];
            && one != two
            && UniqueAuthors(one) && UniqueAuthors(two)
            && RenderComments(one, TextOf) == RenderComments(two, TextOf)
  {
    var c := Comment(a1, Decorator + "x", rating);
    var c1 := Comment(a1, "", rating);
    var c2 := Comment(a2, "x", rating);
    assert [c1] + [c2] == [c1, c2];
    RenderCons(c1, [c2], TextOf);
    assert [c] + [] == [c];
    RenderCons(c, [], TextOf);
    assert RenderComments([c2], TextOf) == Decorator + "x" by {
      assert [c2] + [] == [c2];
      RenderCons(c2, [], TextOf);
    }
  }

  class CommentableProduct {
    /** The attributes inherited from `Producto`. */
    const product: Product
    var comments: seq<Comment>

    /** At most one comment per author. */
    ghost predicate Valid()
      reads this
    {
      UniqueAuthors(comments)
    }

    /** The field assignments of the constructor, once the arguments are known
        to be correct (`Create` performs the check). */
    constructor (name: string, id: Identifier, quantity: Int32, price: real, minStock: Int32,
                 manufacturer: Manufacturer, priority: Priority)
      requires IsCorrect(quantity, price, minStock)
      ensures fresh(product) && product.Valid()
      ensures product.State() == ProductState(name, id, quantity, price, minStock, priority, manufacturer)
      ensures comments == [] && Valid()
    {
      product := new Product(name, id, quantity, price, minStock, manufacturer, priority);
      comments := [];
    }

    /** The constructor of `ProductoComentable`: the same validation as the
        base product, and an empty comment list. */
    static method Create(name: string, id: Identifier, quantity: Int32, price: real, minStock: Int32,
                         manufacturer: Manufacturer, priority: Priority)
      returns (r: Result<CommentableProduct, InvalidArgument>)
      ensures r.Failure? <==> !IsCorrect(quantity, price, minStock)
      ensures r.Success? ==> fresh(r.value) && fresh(r.value.product) && r.value.product.Valid()
      ensures r.Success? ==>
        r.value.product.State() == ProductState(name, id, quantity, price, minStock, priority, manufacturer)
      ensures r.Success? ==> r.value.comments == [] && r.value.Valid()
    {
      if !IsCorrect(quantity, price, minStock) {
        return Failure(InvalidArgument);
      }
      var p := new CommentableProduct(name, id, quantity, price, minStock, manufacturer, priority);
      return Success(p);
    }

    /** `comentar`: scans the comments for one by the same author; publishes
        the new comment at the end only if there is none. */
    method AddComment(c: Comment) returns (published: bool)
      modifies this
      ensures published <==> !HasAuthor(old(comments), c.author)
      ensures published ==> comments == old(comments) + [c]
      ensures !published ==> comments == old(comments)
      ensures old(Valid()) ==> Valid()
    {
      var repeated := false;
      var i := 0;
      while i < |comments| && !repeated
        invariant 0 <= i <= |comments|
        invariant repeated <==> HasAuthor(comments[..i], c.author)
      {
        if comments[i].author == c.author {
          repeated := true;
        }
        assert comments[..i + 1] == comments[..i] + [comments[i]];
        i := i + 1;
      }
      assert repeated <==> HasAuthor(comments, c.author) by {
        if !repeated {
          assert comments[..i] == comments;
        }
      }
      if !repeated {
        comments := comments + [c];
      }
      return !repeated;
    }

    /** `recuperarComentarios`: accumulates the rendering comment by comment. */
    method RecoverComments(render: Comment -> string) returns (s: string)
      ensures s == RenderComments(comments, render)
    {
      s := [];
      for i := 0 to |comments|
        invariant s == RenderComments(comments[..i], render)
      {
        assert comments[..i + 1][..i] == comments[..i];
        s := s + Decorator + render(comments[i]);
      }
      assert comments[..|comments|] == comments;
    }

    /** `equals`: the same object, or equal base attributes and equal
        renderings of the comment lists. */
    function Equals(other: CommentableProduct, render: Comment -> string): (same: bool)
      reads this, product, other, other.product
      ensures same <==> product.State() == other.product.State() &&
                        RenderComments(comments, render) == RenderComments(other.comments, render)
    {
      this == other ||
      (product.Equals(other.product) &&
       RenderComments(comments, render) == RenderComments(other.comments, render))
    }
  }

  /** A second comment by the same author is refused and the list keeps one entry. */
  method CommentTwice(p: CommentableProduct, first: Comment, second: Comment)
    returns (firstPublished: bool, secondPublished: bool)
    requires p.comments == [] && first.author == second.author
    modifies p
    ensures firstPublished && !secondPublished
    ensures p.comments == [first]
  {
    firstPublished := p.AddComment(first);
    assert p.comments[0].author == second.author;
    secondPublished := p.AddComment(second);
  }
}
