/** posts/signals.py: after every save of a post with content, its tag set
    is rebuilt from the `#word` hashtags of the content. */
module PostsSignals {
  import opened Base
  import opened PostsModels

  /** Length of the longest prefix of `s` made of word characters. */
  function WordRun(s: string, isWord: char -> bool): (n: nat)
    ensures n <= |s|
    ensures forall i :: 0 <= i < n ==> isWord(s[i])
    ensures n < |s| ==> !isWord(s[n])
  {
    if s != [] && isWord(s[0]) then 1 + WordRun(s[1..], isWord) else 0
  }

  /** `re.findall(r"#(\w+)", s)`: scanning left to right, a `#` followed by
      at least one word character matches greedily and the scan resumes after
      the match; anywhere else the scan moves on by one character. `isWord`
      stands for the regular-expression class `\w`. */
  function FindHashtags(s: string, isWord: char -> bool): (r: seq<string>)
    decreases |s|
  {
    if s == [] then []
    else if s[0] == '#' && |s| > 1 && isWord(s[1]) then
      var n := WordRun(s[1..], isWord);
      [s[1..1 + n]] + FindHashtags(s[1 + n..], isWord)
    else FindHashtags(s[1..], isWord)
  }

  predicate IsWordName(name: string, isWord: char -> bool)
  {
    name != [] && forall i :: 0 <= i < |name| ==> isWord(name[i])
  }

  /** `name` occurs in `s` right after a `#`. */
  predicate FollowsHash(name: string, s: string)
  {
    exists i :: 0 <= i && i + 1 + |name| <= |s| && s[i] == '#' && s[i + 1..i + 1 + |name|] == name
  }

  /** Every extracted name is a non-empty run of word characters. */
  lemma {:induction false} HashtagsAreWords(s: string, isWord: char -> bool)
    ensures forall name :: name in FindHashtags(s, isWord) ==> IsWordName(name, isWord)
    decreases |s|
  {
    if s != [] {
      if s[0] == '#' && |s| > 1 && isWord(s[1]) {
        var n := WordRun(s[1..], isWord);
        HashtagsAreWords(s[1 + n..], isWord);
      } else {
        HashtagsAreWords(s[1..], isWord);
      }
    }
  }

  /** Dropping a prefix keeps an occurrence after `#` an occurrence. */
  lemma SuffixFollowsHash(name: string, s: string, k: nat)
    requires k <= |s| && FollowsHash(name, s[k..])
    ensures FollowsHash(name, s)
  {
    var rest := s[k..];
    var i :| 0 <= i && i + 1 + |name| <= |rest| && rest[i] == '#' && rest[i + 1..i + 1 + |name|] == name;
    assert s[k + i] == '#' && s[k + i + 1..k + i + 1 + |name|] == name;
  }

  /** Every extracted name occurs in the content right after a `#`. */
  lemma {:induction false} HashtagsOccur(s: string, isWord: char -> bool)
    ensures forall name :: name in FindHashtags(s, isWord) ==> FollowsHash(name, s)
    decreases |s|
  {
    if s != [] {
      if s[0] == '#' && |s| > 1 && isWord(s[1]) {
        var n := WordRun(s[1..], isWord);
        HashtagsOccur(s[1 + n..], isWord);
        forall name | name in FindHashtags(s, isWord) ensures FollowsHash(name, s) {
          if name == s[1..1 + n] {
            assert s[0] == '#' && s[0 + 1..0 + 1 + |name|] == name;
          } else {
            SuffixFollowsHash(name, s, 1 + n);
          }
        }
      } else {
        HashtagsOccur(s[1..], isWord);
        forall name | name in FindHashtags(s, isWord) ensures FollowsHash(name, s) {
          SuffixFollowsHash(name, s, 1);
        }
      }
    }
  }

  /** Content written as `#name1 #name2 ...`, each tag followed by a space. */
  function RenderHashtags(names: seq<string>): string
  {
    if names == [] then [] else "#" + names[0] + " " + RenderHashtags(names[1..])
  }

  /** Extraction inverts rendering: writing each tag as `#name ` and
      extracting again gives back exactly the names, in order. */
  lemma {:induction false} FindRendered(names: seq<string>, isWord: char -> bool)
    requires !isWord(' ')
    requires forall name :: name in names ==> IsWordName(name, isWord)
    ensures FindHashtags(RenderHashtags(names), isWord) == names
  {
    if names != [] {
      var s := RenderHashtags(names);
      var name := names[0];
      var tail := RenderHashtags(names[1..]);
      assert name in names;
      assert s == "#" + name + " " + tail;
      assert s[1..] == name + " " + tail;
      assert s[0] == '#' && |s| > 1 && s[1] == name[0];
      WordRunOf(name, " " + tail, isWord);
      assert s[1 + |name|..] == " " + tail;
      assert s[1..1 + |name|] == name;
      assert (" " + tail)[1..] == tail;
      assert FindHashtags(" " + tail, isWord) == FindHashtags(tail, isWord);
      FindRendered(names[1..], isWord);
    }
  }

  lemma {:induction false} WordRunOf(name: string, rest: string, isWord: char -> bool)
    requires forall i :: 0 <= i < |name| ==> isWord(name[i])
    requires rest != [] && !isWord(rest[0])
    ensures WordRun(name + rest, isWord) == |name|
  {
    if name != [] {
      assert (name + rest)[1..] == name[1..] + rest;
      WordRunOf(name[1..], rest, isWord);
    } else {
      assert name + rest == rest;
    }
  }

  /** The lowercased names of a list of hashtags. */
  function Lowered(names: seq<string>, lower: string -> string): set<string>
  {
    set n | n in names :: lower(n)
  }

  /** Ids of the tags whose name is in `names`. */
  function TagIdsNamed(tags: seq<Tag>, names: set<string>): set<nat>
  {
    set t | t in tags && t.name in names :: t.id
  }

  function TagNames(tags: seq<Tag>): set<string>
  {
    set t | t in tags :: t.name
  }

  /** One iteration of the receiver's loop: get or create the tag `name`
      and link it to the post. */
  method LinkHashtag(db: PostStore, postId: nat, name: string) returns (t: Tag)
    requires db.Valid()
    modifies db`tags, db`nextTagId, db`tagLinks
    ensures db.Valid()
    ensures t.name == name
    ensures TagsOf(db.tagLinks, postId) == TagsOf(old(db.tagLinks), postId) + {t.id}
    ensures OtherLinks(db.tagLinks, postId) == OtherLinks(old(db.tagLinks), postId)
    ensures TagNames(db.tags) == TagNames(old(db.tags)) + {name}
    ensures old(db.tags) <= db.tags
    ensures name in TagNames(old(db.tags)) ==> db.tags == old(db.tags)
    ensures forall names :: TagIdsNamed(db.tags, names + {name}) == TagIdsNamed(old(db.tags), names) + {t.id}
  {
    ghost var links := db.tagLinks;
    t := db.GetOrCreateTag(name);
    TagNamesGrow(old(db.tags), db.tags, t);
    LinkAdded(links, postId, t.id);
    db.AddTag(postId, t.id);
    forall names ensures TagIdsNamed(db.tags, names + {name}) == TagIdsNamed(old(db.tags), names) + {t.id} {
      TagIdsNamedStep(old(db.tags), db.tags, names, t);
    }
  }

  /** `extract_hashtags`, the post-save receiver, for the saved `post`.
      `lower` stands for `str.lower`. A post with content gets exactly the
      tags named by its lowercased hashtags, and the only names the tag table
      gains are those hashtags that were missing; links of other posts are
      untouched, existing tags stay, and when every name
      already has a tag no tag is created. Empty content changes nothing. */
  method ExtractHashtags(db: PostStore, post: Post, isWord: char -> bool, lower: string -> string)
    requires db.Valid()
    modifies db`tags, db`nextTagId, db`tagLinks
    ensures db.Valid()
    ensures post.content == [] ==>
      db.tags == old(db.tags) && db.tagLinks == old(db.tagLinks) && db.nextTagId == old(db.nextTagId)
    ensures post.content != [] ==>
      && TagsOf(db.tagLinks, post.id) == TagIdsNamed(db.tags, Lowered(FindHashtags(post.content, isWord), lower))
      && TagNames(db.tags) == TagNames(old(db.tags)) + Lowered(FindHashtags(post.content, isWord), lower)
      && OtherLinks(db.tagLinks, post.id) == OtherLinks(old(db.tagLinks), post.id)
      && old(db.tags) <= db.tags
      && (Lowered(FindHashtags(post.content, isWord), lower) <= TagNames(old(db.tags)) ==> db.tags == old(db.tags))
  {
    if post.content == [] {
      return;
    }
    var hashtags := FindHashtags(post.content, isWord);
    db.ClearTags(post.id);
    ghost var before := db.tags;
    ghost var others := OtherLinks(db.tagLinks, post.id);
    for i := 0 to |hashtags|
      invariant db.Valid()
      invariant TagsOf(db.tagLinks, post.id) == TagIdsNamed(db.tags, Lowered(hashtags[..i], lower))
      invariant TagNames(db.tags) == TagNames(before) + Lowered(hashtags[..i], lower)
      invariant OtherLinks(db.tagLinks, post.id) == others
      invariant before <= db.tags
      invariant Lowered(hashtags, lower) <= TagNames(before) ==> db.tags == before
    {
      LoweredStep(hashtags, i, lower);
      ghost var mid := db.tags;
      var tagObj := LinkHashtag(db, post.id, lower(hashtags[i]));
      NamesStep(TagNames(before), TagNames(mid), TagNames(db.tags), hashtags, i, lower);
    }
    assert hashtags[..|hashtags|] == hashtags;
  }

  /** A link table is determined by the links of post `p` together with
      the links of every other post. */
  lemma LinksDetermined(a: set<TagLink>, b: set<TagLink>, p: nat)
    requires OtherLinks(a, p) == OtherLinks(b, p) && TagsOf(a, p) == TagsOf(b, p)
    ensures a == b
  {
    forall l | l in a ensures l in b {
      if l.post == p {
        assert l.tag in TagsOf(b, p);
        var l' :| l' in b && l'.post == p && l'.tag == l.tag;
        assert l' == l;
      } else {
        assert l in OtherLinks(b, p);
      }
    }
    forall l | l in b ensures l in a {
      if l.post == p {
        assert l.tag in TagsOf(a, p);
        var l' :| l' in a && l'.post == p && l'.tag == l.tag;
        assert l' == l;
      } else {
        assert l in OtherLinks(a, p);
      }
    }
  }

  /** Saving a post again without changing its content: once its tags match
      its hashtags, the receiver creates no tag and changes no link. */
  method ResaveUnchanged(db: PostStore, post: Post, isWord: char -> bool, lower: string -> string)
    requires db.Valid()
    requires post.content != [] ==>
      && TagsOf(db.tagLinks, post.id) == TagIdsNamed(db.tags, Lowered(FindHashtags(post.content, isWord), lower))
      && Lowered(FindHashtags(post.content, isWord), lower) <= TagNames(db.tags)
    modifies db`tags, db`nextTagId, db`tagLinks
    ensures db.Valid()
    ensures db.tags == old(db.tags) && db.tagLinks == old(db.tagLinks)
  {
    ExtractHashtags(db, post, isWord, lower);
    if post.content != [] {
      LinksDetermined(db.tagLinks, old(db.tagLinks), post.id);
    }
  }

  lemma LoweredStep(hashtags: seq<string>, i: nat, lower: string -> string)
    requires i < |hashtags|
    ensures Lowered(hashtags[..i + 1], lower) == Lowered(hashtags[..i], lower) + {lower(hashtags[i])}
    ensures lower(hashtags[i]) in Lowered(hashtags, lower)
  {
    assert hashtags[..i + 1] == hashtags[..i] + [hashtags[i]];
  }

  /** One loop step on tag names: the names gained so far grow by the
      lowercased hashtag just handled. */
  lemma NamesStep(before: set<string>, mid: set<string>, after: set<string>,
                  hashtags: seq<string>, i: nat, lower: string -> string)
    requires i < |hashtags|
    requires mid == before + Lowered(hashtags[..i], lower)
    requires after == mid + {lower(hashtags[i])}
    ensures after == before + Lowered(hashtags[..i + 1], lower)
  {
    LoweredStep(hashtags, i, lower);
  }

  /** Getting or creating tag `t` adds exactly its name to the tag names. */
  lemma TagNamesGrow(prev: seq<Tag>, next: seq<Tag>, t: Tag)
    requires t in next
    requires next == prev || next == prev + [t]
    ensures TagNames(next) == TagNames(prev) + {t.name}
  {
    if next != prev {
      forall n | n in TagNames(next) ensures n in TagNames(prev) + {t.name} {
        var u :| u in next && u.name == n;
        if u != t { assert u in prev; }
      }
    }
  }

  /** Linking `tagId` to a post gives that post one more tag and leaves the
      links of every other post as they were. */
  lemma LinkAdded(links: set<TagLink>, postId: nat, tagId: nat)
    ensures TagsOf(links + {TagLink(postId, tagId)}, postId) == TagsOf(links, postId) + {tagId}
    ensures OtherLinks(links + {TagLink(postId, tagId)}, postId) == OtherLinks(links, postId)
  {
    assert TagLink(postId, tagId) in links + {TagLink(postId, tagId)};
  }

  lemma TagIdsNamedStep(prev: seq<Tag>, next: seq<Tag>, names: set<string>, t: Tag)
    requires TagNamesUnique(next)
    requires t in next
    requires next == prev || (next == prev + [t] && forall u :: u in prev ==> u.name != t.name)
    ensures TagIdsNamed(next, names + {t.name}) == TagIdsNamed(prev, names) + {t.id}
  {
    forall id | id in TagIdsNamed(next, names + {t.name}) ensures id in TagIdsNamed(prev, names) + {t.id} {
      var u :| u in next && u.name in names + {t.name} && u.id == id;
      if u.name == t.name {
        var a :| 0 <= a < |next| && next[a] == u;
        var b :| 0 <= b < |next| && next[b] == t;
        assert a == b;
      } else {
        assert u in prev;
      }
    }
  }
}
