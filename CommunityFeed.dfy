/**
 * The community page's local feed: publishing prepends a post built from the
 * composer, liking bumps one post's counter. Both act only on the page's own
 * list; nothing is sent to the backend.
 */
module CommunityFeed {
  import opened Common
  import opened Auth

  /** "checkin" | "resultado" | "nutricao" | "aviso" | "momento". */
  datatype PostKind = CheckIn | Outcome | Nutrition | Notice | Moment

  datatype Author = Author(name: string, avatar: string, unit: string)

  datatype NutritionFacts = NutritionFacts(protein: string, carbs: string, kcal: string)

  datatype FeedPost = FeedPost(
    id: string, kind: PostKind, author: Author, timestamp: string,
    image: string, imageSecondary: Option<string>, caption: string,
    likes: int, comments: int, nutrition: Option<NutritionFacts>, isVideo: Option<bool>)

  datatype MediaType = Image | Video

  const PlaceholderImage: string := "https://images.unsplash.com/photo-1517836357463-d25dfeac3438?w=800&h=600&fit=crop"

  /** The characters `String.prototype.trim` removes: white space and line terminators. */
  predicate IsWhitespace(c: char)
  {
    c == ' ' || c == '\t' || c == '\n' || c == '\r' || c == '\U{000B}' || c == '\U{000C}'
    || c == '\U{00A0}' || c == '\U{1680}' || ('\U{2000}' <= c <= '\U{200A}')
    || c == '\U{2028}' || c == '\U{2029}' || c == '\U{202F}' || c == '\U{205F}'
    || c == '\U{3000}' || c == '\U{FEFF}'
  }

  /** `!caption.trim()`: nothing is left once the surrounding white space is trimmed. */
  predicate IsBlank(s: string)
  {
    forall i :: 0 <= i < |s| ==> IsWhitespace(s[i])
  }

  /** The post `handlePublish` builds from the composer and the signed-in user. */
  function ComposedPost(user: User, caption: string, selectedMedia: Option<string>, mediaType: Option<MediaType>, now: nat): (p: FeedPost)
    ensures p.id == DecimalString(now) && p.timestamp == "agora"
    ensures p.likes == 0 && p.comments == 0 && p.caption == caption
    ensures p.author == Author(user.name, user.avatar, user.unit)
    ensures p.kind == (if mediaType == Some(Video) then Moment else CheckIn)
    ensures p.isVideo == Some(mediaType == Some(Video))
    ensures selectedMedia.Some? && selectedMedia.value != "" ==> p.image == selectedMedia.value
    ensures selectedMedia.None? || selectedMedia.value == "" ==> p.image == PlaceholderImage
    ensures p.imageSecondary.None? && p.nutrition.None?
  {
    FeedPost(
      DecimalString(now),
      if mediaType == Some(Video) then Moment else CheckIn,
      Author(user.name, user.avatar, user.unit),
      "agora",
      match selectedMedia { case Some(m) => if m != "" then m else PlaceholderImage case None => PlaceholderImage },
      None,
      caption,
      0, 0, None,
      Some(mediaType == Some(Video)))
  }

  /** One post after a like: one more like if it carries the id. */
  function Bump(p: FeedPost, postId: string): FeedPost
  {
    if p.id == postId then p.(likes := p.likes + 1) else p
  }

  /** `posts.map(...)` of `handleLike`. */
  function Liked(posts: seq<FeedPost>, postId: string): (r: seq<FeedPost>)
    ensures |r| == |posts|
    ensures forall i :: 0 <= i < |posts| && posts[i].id == postId ==> r[i] == posts[i].(likes := posts[i].likes + 1)
    ensures forall i :: 0 <= i < |posts| && posts[i].id != postId ==> r[i] == posts[i]
  {
    if posts == [] then [] else [Bump(posts[0], postId)] + Liked(posts[1..], postId)
  }

  function TotalLikes(posts: seq<FeedPost>): int
  {
    if posts == [] then 0 else posts[0].likes + TotalLikes(posts[1..])
  }

  function CountWithId(posts: seq<FeedPost>, postId: string): nat
  {
    if posts == [] then 0 else (if posts[0].id == postId then 1 else 0) + CountWithId(posts[1..], postId)
  }

  /** A like adds exactly one to the feed's total per post carrying the id. */
  lemma {:induction false} LikeAddsOnePerMatch(posts: seq<FeedPost>, postId: string)
    ensures TotalLikes(Liked(posts, postId)) == TotalLikes(posts) + CountWithId(posts, postId)
  {
    if posts != [] {
      LikeAddsOnePerMatch(posts[1..], postId);
      assert Liked(posts, postId)[1..] == Liked(posts[1..], postId);
    }
  }

  /** An id that no post carries leaves the feed as it was. */
  lemma LikeUnknownId(posts: seq<FeedPost>, postId: string)
    requires forall i :: 0 <= i < |posts| ==> posts[i].id != postId
    ensures Liked(posts, postId) == posts
  {
  }

  /** Likes do not toggle: liking twice adds two, every other field stays. */
  lemma LikeTwice(posts: seq<FeedPost>, postId: string)
    ensures var r := Liked(Liked(posts, postId), postId);
      |r| == |posts|
      && forall i :: 0 <= i < |posts| ==>
           r[i] == if posts[i].id == postId then posts[i].(likes := posts[i].likes + 2) else posts[i]
  {
  }

  class Feed {
    var posts: seq<FeedPost>
    var newPostCaption: string
    var selectedMedia: Option<string>
    var mediaType: Option<MediaType>

    /** The page starts from a fixed list of example posts, passed in here. */
    constructor (initial: seq<FeedPost>)
      ensures posts == initial && newPostCaption == "" && selectedMedia == None && mediaType == None
    {
      posts := initial;
      newPostCaption := "";
      selectedMedia := None;
      mediaType := None;
    }

    /** The composer's text area. */
    method HandleCaptionChange(caption: string)
      modifies this
      ensures newPostCaption == caption
      ensures posts == old(posts) && selectedMedia == old(selectedMedia) && mediaType == old(mediaType)
    {
      newPostCaption := caption;
    }

    /** What the file reader's completion does in `handleMediaSelect`; blocked when signed out. */
    method HandleMediaLoaded(isAuthenticated: bool, dataUrl: string, kind: MediaType)
      modifies this
      ensures isAuthenticated ==> selectedMedia == Some(dataUrl) && mediaType == Some(kind)
      ensures !isAuthenticated ==> selectedMedia == old(selectedMedia) && mediaType == old(mediaType)
      ensures posts == old(posts) && newPostCaption == old(newPostCaption)
    {
      if isAuthenticated {
        selectedMedia := Some(dataUrl);
        mediaType := Some(kind);
      }
    }

    /** `handlePublish`: prepend the composed post and clear the composer, when allowed. */
    method HandlePublish(isAuthenticated: bool, user: Option<User>, now: nat)
      modifies this
      ensures !isAuthenticated || IsBlank(old(newPostCaption)) || user.None? ==>
        posts == old(posts) && newPostCaption == old(newPostCaption)
        && selectedMedia == old(selectedMedia) && mediaType == old(mediaType)
      ensures isAuthenticated && !IsBlank(old(newPostCaption)) && user.Some? ==>
        posts == [ComposedPost(user.value, old(newPostCaption), old(selectedMedia), old(mediaType), now)] + old(posts)
        && newPostCaption == "" && selectedMedia == None && mediaType == None
    {
      if !isAuthenticated {
        return;
      }
      if IsBlank(newPostCaption) || user.None? {
        return;
      }
      var newPost := ComposedPost(user.value, newPostCaption, selectedMedia, mediaType, now);
      posts := [newPost] + posts;
      newPostCaption := "";
      selectedMedia := None;
      mediaType := None;
    }

    /** `handleLike`: one more like on the posts with that id; signed out, nothing changes. */
    method HandleLike(isAuthenticated: bool, postId: string)
      modifies this
      ensures posts == if isAuthenticated then Liked(old(posts), postId) else old(posts)
      ensures newPostCaption == old(newPostCaption) && selectedMedia == old(selectedMedia) && mediaType == old(mediaType)
    {
      if !isAuthenticated {
        return;
      }
      posts := Liked(posts, postId);
    }
  }
}
