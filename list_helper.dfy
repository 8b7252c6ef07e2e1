/**
 * Summary statistics over an in-memory list of blog records
 * (utils/list_helper.js). Both statistics are `reduce` folds from the
 * left; they are modelled as left folds and proved against independent
 * right-recursive reference definitions.
 */
module ListHelper {

  /** A blog record as the helpers see it; `likes` is an integer. */
  datatype Blog = Blog(title: string, author: string, url: string, likes: int)

  /** The object `favoriteBlog` returns: `{}` for the empty list, otherwise
      only the title, author and likes of the chosen record. */
  datatype Favorite = NoFavorite | Favorite(title: string, author: string, likes: int)

  /** The `{title, author, likes}` projection of a record. */
  function SummaryOf(b: Blog): Favorite
  {
    Favorite(b.title, b.author, b.likes)
  }

  // ---------------------------------------------------------------- dummy

  /** `dummy` ignores its argument and answers 1. */
  function Dummy(blogs: seq<Blog>): (r: int)
    ensures r == 1
  {
    1
  }

  // ----------------------------------------------------------- totalLikes

  /** Reference: the arithmetic sum of the `likes` fields. */
  function Sum(blogs: seq<Blog>): int
  {
    if blogs == [] then 0 else blogs[0].likes + Sum(blogs[1..])
  }

  /** The `reduce((acc, curr) => acc + curr.likes, acc)` fold, left to right:
      it adds the reference sum to its accumulator. */
  function FoldLikes(acc: int, blogs: seq<Blog>): (r: int)
    ensures r == acc + Sum(blogs)
    decreases |blogs|
  {
    if blogs == [] then acc else FoldLikes(acc + blogs[0].likes, blogs[1..])
  }

  /** `totalLikes`: the fold from 0, then `t === 0 ? 0 : t`. */
  function TotalLikes(blogs: seq<Blog>): (r: int)
    ensures r == Sum(blogs)
    ensures blogs == [] ==> r == 0
  {
    var t := FoldLikes(0, blogs);
    if t == 0 then 0 else t
  }

  /** The final zero test leaves every integer result of the fold as it is. */
  lemma ZeroGuardIsIdentity(blogs: seq<Blog>)
    ensures TotalLikes(blogs) == FoldLikes(0, blogs)
  {
  }

  /** The sum splits over concatenation. */
  lemma {:induction false} SumAppend(a: seq<Blog>, b: seq<Blog>)
    ensures Sum(a + b) == Sum(a) + Sum(b)
  {
    if a == [] {
      assert a + b == b;
    } else {
      assert (a + b)[1..] == a[1..] + b;
      SumAppend(a[1..], b);
    }
  }

  /** Total likes of two lists placed one after the other. */
  lemma TotalLikesAppend(a: seq<Blog>, b: seq<Blog>)
    ensures TotalLikes(a + b) == TotalLikes(a) + TotalLikes(b)
  {
    SumAppend(a, b);
  }

  /** A single record contributes exactly its likes. */
  lemma TotalLikesSingle(b: Blog)
    ensures TotalLikes([b]) == b.likes
  {
    assert [b][1..] == [];
    assert Sum([b]) == b.likes + Sum([]);
  }

  /** Taking one record out of the list takes its likes out of the sum. */
  lemma SumRemoveAt(b: seq<Blog>, i: int)
    requires 0 <= i < |b|
    ensures Sum(b) == b[i].likes + Sum(b[..i] + b[i + 1..])
  {
    assert b == b[..i] + ([b[i]] + b[i + 1..]);
    SumAppend(b[..i], [b[i]] + b[i + 1..]);
    assert ([b[i]] + b[i + 1..])[1..] == b[i + 1..];
    SumAppend(b[..i], b[i + 1..]);
  }

  /** The sum is order independent: it depends on the multiset of records only. */
  lemma {:induction false} SumOfPermutation(a: seq<Blog>, b: seq<Blog>)
    requires multiset(a) == multiset(b)
    ensures Sum(a) == Sum(b)
    decreases |a|
  {
    if a == [] {
      assert |b| == |multiset(b)| == 0;
    } else {
      var x := a[0];
      assert x in multiset(b);
      var i :| 0 <= i < |b| && b[i] == x;
      var rest := b[..i] + b[i + 1..];
      assert b == b[..i] + [x] + b[i + 1..];
      assert multiset(b) == multiset(b[..i]) + multiset{x} + multiset(b[i + 1..]);
      assert multiset(rest) == multiset(b[..i]) + multiset(b[i + 1..]);
      assert a == [x] + a[1..];
      assert multiset(a) == multiset{x} + multiset(a[1..]);
      forall y
        ensures multiset(a[1..])[y] == multiset(rest)[y]
      {
        assert multiset(a)[y] == multiset{x}[y] + multiset(a[1..])[y];
        assert multiset(b)[y] == multiset{x}[y] + multiset(rest)[y];
      }
      assert multiset(a[1..]) == multiset(rest);
      SumOfPermutation(a[1..], rest);
      SumRemoveAt(b, i);
    }
  }

  /** With non-negative likes the total is non-negative. */
  lemma {:induction false} TotalLikesNonNegative(blogs: seq<Blog>)
    requires forall i :: 0 <= i < |blogs| ==> blogs[i].likes >= 0
    ensures TotalLikes(blogs) >= 0
  {
    if blogs != [] {
      TotalLikesNonNegative(blogs[1..]);
    }
  }

  // --------------------------------------------------------- favoriteBlog

  /**
   * The `reduce` step of `favoriteBlog`: the current record replaces the
   * one held so far only when it has strictly more likes.
   */
  function Pick(best: Blog, blogs: seq<Blog>): (r: Blog)
    ensures r == best || r in blogs
    ensures best.likes <= r.likes
    ensures forall j :: 0 <= j < |blogs| ==> blogs[j].likes <= r.likes
    ensures r.likes == best.likes ==> r == best
    decreases |blogs|
  {
    if blogs == [] then best
    else Pick(if blogs[0].likes > best.likes then blogs[0] else best, blogs[1..])
  }

  /** `favoriteBlog`: `{}` for the empty list, otherwise the projection of
      the fold started from `blogs[0]` and run over the whole list. */
  function FavoriteBlog(blogs: seq<Blog>): (r: Favorite)
    ensures r.NoFavorite? <==> blogs == []
    ensures r.Favorite? ==> exists i :: 0 <= i < |blogs| && r == SummaryOf(blogs[i])
    ensures r.Favorite? ==> forall j :: 0 <= j < |blogs| ==> blogs[j].likes <= r.likes
  {
    if |blogs| == 0 then NoFavorite
    else
      var most := Pick(blogs[0], blogs);
      Favorite(most.title, most.author, most.likes)
  }

  /** Index `i` holds a largest `likes`, and every earlier record has fewer. */
  ghost predicate IsFirstMax(blogs: seq<Blog>, i: int)
  {
    && 0 <= i < |blogs|
    && (forall j :: 0 <= j < |blogs| ==> blogs[j].likes <= blogs[i].likes)
    && (forall j :: 0 <= j < i ==> blogs[j].likes < blogs[i].likes)
  }

  /** Reference: the largest `likes` of a non-empty list. */
  function MaxLikes(blogs: seq<Blog>): int
    requires blogs != []
  {
    if |blogs| == 1 then blogs[0].likes
    else
      var m := MaxLikes(blogs[1..]);
      if blogs[0].likes < m then m else blogs[0].likes
  }

  /**
   * What the fold of `Pick` returns, with the index it came from: either
   * it kept `best` (k == -1), or it took the first record of `blogs`
   * holding the largest likes, which beats `best`.
   */
  lemma {:induction false} PickIndex(best: Blog, blogs: seq<Blog>) returns (k: int)
    ensures -1 <= k < |blogs|
    ensures k == -1 ==> Pick(best, blogs) == best
    ensures k == -1 ==> forall j :: 0 <= j < |blogs| ==> blogs[j].likes <= best.likes
    ensures 0 <= k ==> Pick(best, blogs) == blogs[k] && best.likes < blogs[k].likes
    ensures 0 <= k ==> forall j :: 0 <= j < |blogs| ==> blogs[j].likes <= blogs[k].likes
    ensures 0 <= k ==> forall j :: 0 <= j < k ==> blogs[j].likes < blogs[k].likes
    decreases |blogs|
  {
    if blogs == [] {
      k := -1;
    } else {
      var next := if blogs[0].likes > best.likes then blogs[0] else best;
      var k' := PickIndex(next, blogs[1..]);
      if k' >= 0 {
        k := k' + 1;
        assert blogs[k] == blogs[1..][k'];
        forall j | 0 <= j < k
          ensures blogs[j].likes < blogs[k].likes
        {
          if j > 0 {
            assert blogs[j] == blogs[1..][j - 1];
          }
        }
        forall j | 0 <= j < |blogs|
          ensures blogs[j].likes <= blogs[k].likes
        {
          if j > 0 {
            assert blogs[j] == blogs[1..][j - 1];
          }
        }
      } else if blogs[0].likes > best.likes {
        k := 0;
        forall j | 0 <= j < |blogs|
          ensures blogs[j].likes <= blogs[0].likes
        {
          if j > 0 {
            assert blogs[j] == blogs[1..][j - 1];
          }
        }
      } else {
        k := -1;
        forall j | 0 <= j < |blogs|
          ensures blogs[j].likes <= best.likes
        {
          if j > 0 {
            assert blogs[j] == blogs[1..][j - 1];
          }
        }
      }
    }
  }

  /** The favourite is the first record holding the largest `likes`. */
  lemma FavoriteBlogIsFirstMax(blogs: seq<Blog>) returns (i: nat)
    requires blogs != []
    ensures IsFirstMax(blogs, i)
    ensures FavoriteBlog(blogs) == SummaryOf(blogs[i])
  {
    var k := PickIndex(blogs[0], blogs);
    if k == -1 {
      i := 0;
    } else {
      i := k;
    }
  }

  /** The first maximum is unique, so the favourite is determined by it:
      a later record with equally many likes never wins the tie. */
  lemma FavoriteBlogAtFirstMax(blogs: seq<Blog>, i: int)
    requires IsFirstMax(blogs, i)
    ensures FavoriteBlog(blogs) == SummaryOf(blogs[i])
  {
    var k := FavoriteBlogIsFirstMax(blogs);
  }

  /** The reference maximum is attained and bounds every record. */
  lemma {:induction false} MaxLikesIsMax(blogs: seq<Blog>)
    requires blogs != []
    ensures exists i :: 0 <= i < |blogs| && blogs[i].likes == MaxLikes(blogs)
    ensures forall j :: 0 <= j < |blogs| ==> blogs[j].likes <= MaxLikes(blogs)
  {
    if |blogs| == 1 {
      assert blogs[0].likes == MaxLikes(blogs);
    } else {
      MaxLikesIsMax(blogs[1..]);
      var i :| 0 <= i < |blogs[1..]| && blogs[1..][i].likes == MaxLikes(blogs[1..]);
      assert blogs[i + 1] == blogs[1..][i];
      if blogs[0].likes < MaxLikes(blogs[1..]) {
        assert blogs[i + 1].likes == MaxLikes(blogs);
      } else {
        assert blogs[0].likes == MaxLikes(blogs);
      }
      forall j | 0 <= j < |blogs|
        ensures blogs[j].likes <= MaxLikes(blogs)
      {
        if j > 0 {
          assert blogs[j] == blogs[1..][j - 1];
        }
      }
    }
  }

  /** The favourite's likes are the largest likes in the list. */
  lemma FavoriteBlogLikesIsMax(blogs: seq<Blog>)
    requires blogs != []
    ensures FavoriteBlog(blogs).likes == MaxLikes(blogs)
  {
  }
}
