/** The community board (components/Forum.tsx): a list of posts that the
    reader can like, extend with new posts and comment on, one post whose
    comments are open, and a category filter. The list updates are pure
    functions; the component's state is the class `Board`, whose methods
    are the event handlers. */
module Forum {
  import opened Outcomes
  import opened Text
  import opened Types
  import opened Lists

  /** The three posts the board starts with. */
  const InitialPosts: seq<ForumPost> := [
    ForumPost(
      "1", "Ana_Cocinillas", "👩‍🍳",
      "¡Chicos! He probado la receta de la carbonara fácil de la app y ha quedado increíble. 🍝 Un truco: añadid un poco más de pimienta negra al final.",
      PresumirPlato, 24, "Hace 2h",
      [Comment("c1", "Pedro1999", "¡Tomo nota! A mí se me cuajó el huevo la última vez 😅", "Hace 1h")],
      false),
    ForumPost(
      "2", "Javi_Student", "👨‍🎓",
      "¿Alguien sabe cómo sustituir el vino blanco en los guisos? No suelo comprar alcohol.",
      Dudas, 5, "Hace 4h",
      [Comment("c2", "Chef4U_Fan", "Puedes usar un poco de caldo de pollo o incluso agua con un chorrito de limón o vinagre.", "Hace 3h")],
      true),
    ForumPost(
      "3", "MartaHealthy", "🥗",
      "¡Oferta en el Lidl! Los aguacates están a mitad de precio hoy. ¡Aprovechad para las tostadas!",
      General, 42, "Hace 5h",
      [],
      false)
  ]

  /** The author name and avatar the board uses for the reader. */
  const ReaderName: string := "Tú"
  const ReaderAvatar: string := "😎"

  /** A like counter agrees with the reader's own like: never negative,
      and at least one while the reader likes the post. */
  predicate LikesConsistent(p: ForumPost) {
    p.likes >= 0 && (p.likedByMe ==> p.likes >= 1)
  }

  predicate AllLikesConsistent(posts: seq<ForumPost>) {
    forall i :: 0 <= i < |posts| ==> LikesConsistent(posts[i])
  }

  // ---------------------------------------------------------------------
  // handleLike

  /** The post after the reader's like is toggled. */
  function ToggleLike(p: ForumPost): ForumPost {
    p.(likes := if p.likedByMe then p.likes - 1 else p.likes + 1, likedByMe := !p.likedByMe)
  }

  /** `posts.map(...)` of handleLike: every post with id `id` toggles its
      like, the reader's flag flips and the counter moves by exactly one
      in that direction; every other post is left as it was. */
  function LikePost(posts: seq<ForumPost>, id: string): (r: seq<ForumPost>)
    ensures |r| == |posts|
    ensures forall i :: 0 <= i < |posts| && posts[i].id != id ==> r[i] == posts[i]
    ensures forall i :: 0 <= i < |posts| && posts[i].id == id ==>
              && r[i].likedByMe == !posts[i].likedByMe
              && r[i].likes == (if posts[i].likedByMe then posts[i].likes - 1 else posts[i].likes + 1)
              && r[i].(likes := posts[i].likes, likedByMe := posts[i].likedByMe) == posts[i]
  {
    seq(|posts|, i requires 0 <= i < |posts| => if posts[i].id == id then ToggleLike(posts[i]) else posts[i])
  }

  /** Liking the same post twice gives back the list. */
  lemma LikeTwiceRestores(posts: seq<ForumPost>, id: string)
    ensures LikePost(LikePost(posts, id), id) == posts
  {
    var once := LikePost(posts, id);
    var twice := LikePost(once, id);
    forall i | 0 <= i < |posts| ensures twice[i] == posts[i] {
      if posts[i].id == id {
        assert once[i].id == id;
      }
    }
  }

  /** Liking keeps every counter consistent with the reader's flag. */
  lemma LikeKeepsLikesConsistent(posts: seq<ForumPost>, id: string)
    requires AllLikesConsistent(posts)
    ensures AllLikesConsistent(LikePost(posts, id))
  {
  }

  /** The seeded posts are consistent. */
  lemma InitialPostsConsistent()
    ensures AllLikesConsistent(InitialPosts)
  {
  }

  // ---------------------------------------------------------------------
  // handleCreatePost

  /** The post handleCreatePost builds: the content as typed (not trimmed),
      id the Date.now() reading `now`, the reader as author, category
      General, no likes and no comments. */
  function NewPost(content: string, now: nat): (r: ForumPost)
    ensures r.content == content && r.id == Decimal(now)
    ensures r.category == General && r.likes == 0 && r.comments == [] && !r.likedByMe
    ensures LikesConsistent(r)
  {
    ForumPost(Decimal(now), ReaderName, ReaderAvatar, content, General, 0, "Ahora mismo", [], false)
  }

  /** The post list after handleCreatePost: unchanged when the content is
      blank, otherwise the new post first and the old posts after it. */
  function CreatePost(posts: seq<ForumPost>, content: string, now: nat): (r: seq<ForumPost>)
    ensures IsBlank(content) ==> r == posts
    ensures !IsBlank(content) ==> |r| == |posts| + 1 && r[0] == NewPost(content, now) && r[1..] == posts
  {
    if IsBlank(content) then posts else [NewPost(content, now)] + posts
  }

  /** Creating a post keeps every counter consistent. */
  lemma CreateKeepsLikesConsistent(posts: seq<ForumPost>, content: string, now: nat)
    requires AllLikesConsistent(posts)
    ensures AllLikesConsistent(CreatePost(posts, content, now))
  {
    var r := CreatePost(posts, content, now);
    if !IsBlank(content) {
      forall i | 0 <= i < |r| ensures LikesConsistent(r[i]) {
        if i > 0 {
          assert r[i] == posts[i - 1];
        }
      }
    }
  }

  // ---------------------------------------------------------------------
  // handleAddComment

  /** The comment handleAddComment appends: the text as typed, id the
      Date.now() reading `now`, the reader as author. */
  function NewComment(text: string, now: nat): Comment {
    Comment(Decimal(now), ReaderName, text, "Ahora")
  }

  /** `posts.map(...)` of handleAddComment: each post with id `postId`
      gains the comment at the end of its comments; nothing else changes. */
  function CommentOn(posts: seq<ForumPost>, postId: string, c: Comment): (r: seq<ForumPost>)
    ensures |r| == |posts|
    ensures forall i :: 0 <= i < |posts| && posts[i].id != postId ==> r[i] == posts[i]
    ensures forall i :: 0 <= i < |posts| && posts[i].id == postId ==>
              && |r[i].comments| == |posts[i].comments| + 1
              && r[i].comments[..|posts[i].comments|] == posts[i].comments
              && r[i].comments[|posts[i].comments|] == c
              && r[i].(comments := posts[i].comments) == posts[i]
  {
    seq(|posts|, i requires 0 <= i < |posts| =>
      if posts[i].id == postId then posts[i].(comments := posts[i].comments + [c]) else posts[i])
  }

  /** Commenting never touches a counter. */
  lemma CommentKeepsLikesConsistent(posts: seq<ForumPost>, postId: string, c: Comment)
    requires AllLikesConsistent(posts)
    ensures AllLikesConsistent(CommentOn(posts, postId, c))
  {
    var r := CommentOn(posts, postId, c);
    forall i | 0 <= i < |r| ensures LikesConsistent(r[i]) {
      assert r[i].likes == posts[i].likes && r[i].likedByMe == posts[i].likedByMe;
    }
  }

  /** Commenting adds one comment to a post carrying `postId` and leaves
      the comment count of a post with another id as it was. */
  lemma CommentCountGrows(posts: seq<ForumPost>, postId: string, c: Comment, i: nat)
    requires i < |posts|
    ensures |CommentOn(posts, postId, c)[i].comments| == |posts[i].comments| + (if posts[i].id == postId then 1 else 0)
  {
  }

  // ---------------------------------------------------------------------
  // toggleComments

  /** The single open-comments slot after toggling `id`: closed when `id`
      was the open post, otherwise `id` becomes the open post. */
  function ToggleSlot(slot: Option<string>, id: string): (r: Option<string>)
    ensures r.None? <==> slot == Some(id)
    ensures r.Some? ==> r.value == id
  {
    if slot == Some(id) then None else Some(id)
  }

  /** Toggling the same post twice from a closed slot closes it again,
      and toggling it twice from open reopens it. */
  lemma ToggleSlotTwice(slot: Option<string>, id: string)
    requires slot == None || slot == Some(id)
    ensures ToggleSlot(ToggleSlot(slot, id), id) == slot
  {
  }

  // ---------------------------------------------------------------------
  // filteredPosts

  /** 'Todas' or one category. */
  datatype CategoryFilter = Todas | Only(category: Category) {
    function Label(): string {
      match this
      case Todas => "Todas"
      case Only(c) => c.Label()
    }
  }

  function HasCategory(c: Category): ForumPost -> bool {
    (p: ForumPost) => p.category == c
  }

  /** The posts shown under a filter. */
  function FilteredPosts(posts: seq<ForumPost>, f: CategoryFilter): seq<ForumPost> {
    match f
    case Todas => posts
    case Only(c) => Filter(posts, HasCategory(c))
  }

  /** Under one category, exactly the posts of that category are shown,
      each as often as in the board, in the board's order. */
  lemma FilteredPostsExact(posts: seq<ForumPost>, c: Category)
    ensures forall p :: p in FilteredPosts(posts, Only(c)) <==> p in posts && p.category == c
    ensures forall p: ForumPost :: p.category == c ==> multiset(FilteredPosts(posts, Only(c)))[p] == multiset(posts)[p]
    ensures IsSubsequence(FilteredPosts(posts, Only(c)), posts)
  {
    FilterIsSubsequence(posts, HasCategory(c));
  }

  /** 'Todas' shows the whole board, and so does a category every post has. */
  lemma FilteredPostsWhole(posts: seq<ForumPost>, f: CategoryFilter)
    requires f.Only? ==> forall i :: 0 <= i < |posts| ==> posts[i].category == f.category
    ensures FilteredPosts(posts, f) == posts
  {
    if f.Only? {
      FilterKeepsAll(posts, HasCategory(f.category));
    }
  }

  // ---------------------------------------------------------------------
  // The component's state and its handlers

  class Board {
    var posts: seq<ForumPost>
    var newPostContent: string
    var activeCategory: CategoryFilter
    var expandedComments: Option<string>
    var newComment: string

    /** Every counter is consistent with the reader's flag. */
    predicate Valid()
      reads this
    {
      AllLikesConsistent(posts)
    }

    constructor()
      ensures posts == InitialPosts && newPostContent == "" && newComment == ""
      ensures activeCategory == Todas && expandedComments == None
      ensures Valid()
    {
      posts := InitialPosts;
      newPostContent := "";
      activeCategory := Todas;
      expandedComments := None;
      newComment := "";
      InitialPostsConsistent();
    }

    method HandleLike(id: string)
      requires Valid()
      modifies this
      ensures posts == LikePost(old(posts), id)
      ensures newPostContent == old(newPostContent) && newComment == old(newComment)
      ensures activeCategory == old(activeCategory) && expandedComments == old(expandedComments)
      ensures Valid()
    {
      LikeKeepsLikesConsistent(posts, id);
      posts := LikePost(posts, id);
    }

    /** Publishes the typed content, unless it is blank; the text field is
        cleared only when a post was made. */
    method HandleCreatePost(now: nat)
      requires Valid()
      modifies this
      ensures posts == CreatePost(old(posts), old(newPostContent), now)
      ensures newPostContent == if IsBlank(old(newPostContent)) then old(newPostContent) else ""
      ensures newComment == old(newComment)
      ensures activeCategory == old(activeCategory) && expandedComments == old(expandedComments)
      ensures Valid()
    {
      var content := newPostContent;
      if IsBlank(content) {
        return;
      }
      CreateKeepsLikesConsistent(posts, content, now);
      posts := CreatePost(posts, content, now);
      newPostContent := "";
    }

    /** Adds the typed comment to post `postId`, unless it is blank; the
        comment field is cleared only when a comment was added. */
    method HandleAddComment(postId: string, now: nat)
      requires Valid()
      modifies this
      ensures posts == if IsBlank(old(newComment)) then old(posts)
                       else CommentOn(old(posts), postId, NewComment(old(newComment), now))
      ensures newComment == if IsBlank(old(newComment)) then old(newComment) else ""
      ensures newPostContent == old(newPostContent)
      ensures activeCategory == old(activeCategory) && expandedComments == old(expandedComments)
      ensures Valid()
    {
      var text := newComment;
      if IsBlank(text) {
        return;
      }
      var c := NewComment(text, now);
      CommentKeepsLikesConsistent(posts, postId, c);
      posts := CommentOn(posts, postId, c);
      newComment := "";
    }

    method ToggleComments(id: string)
      modifies this
      ensures expandedComments == ToggleSlot(old(expandedComments), id)
      ensures posts == old(posts) && newPostContent == old(newPostContent) && newComment == old(newComment)
      ensures activeCategory == old(activeCategory)
    {
      if expandedComments == Some(id) {
        expandedComments := None;
      } else {
        expandedComments := Some(id);
      }
    }

    method SetActiveCategory(f: CategoryFilter)
      modifies this
      ensures activeCategory == f
      ensures posts == old(posts) && newPostContent == old(newPostContent) && newComment == old(newComment)
      ensures expandedComments == old(expandedComments)
    {
      activeCategory := f;
    }

    method SetNewPostContent(text: string)
      modifies this
      ensures newPostContent == text
      ensures posts == old(posts) && newComment == old(newComment)
      ensures activeCategory == old(activeCategory) && expandedComments == old(expandedComments)
    {
      newPostContent := text;
    }

    method SetNewComment(text: string)
      modifies this
      ensures newComment == text
      ensures posts == old(posts) && newPostContent == old(newPostContent)
      ensures activeCategory == old(activeCategory) && expandedComments == old(expandedComments)
    {
      newComment := text;
    }
  }
}
