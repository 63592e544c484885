/** The naming examples every deployment relies on, worked out. */
module NamingExamples {
  import opened QueueNames

  lemma NestedTrim()
    ensures Trim("/Foo/Bar/", '/') == "Foo/Bar"
  {
    var p := "/Foo/Bar/";
    TrimIs(p, '/', 1, 8);
    assert p[1..8] == "Foo/Bar";
  }

  lemma NestedDash()
    ensures ReplaceAll("Foo/Bar", '/', '-') == "Foo-Bar"
  {
  }

  lemma NestedLower()
    ensures ToLower("Foo-Bar") == "foo-bar"
  {
  }

  /** The path `/Foo/Bar/` has the slug `foo-bar`. */
  lemma NestedSlug()
    ensures Slug("/Foo/Bar/") == "foo-bar"
  {
    NestedTrim();
    NestedDash();
    NestedLower();
  }

  /** Under the prefix `api`, the path `/Foo/Bar/` is served by the queue
      `api.foo-bar`. */
  lemma NestedQueueName()
    ensures PathQueueName("api", "/Foo/Bar/") == "api.foo-bar"
  {
    NestedUnderPrefix();
    NestedDotted();
  }

  /** A solver aid: the literal spelling of a dotted name, kept out of the
      example lemma so that the literal does not meet the unfolding of
      `PathQueueName`. */
  lemma NestedDotted()
    ensures "api" + "." + "foo-bar" == "api.foo-bar"
  {
  }

  /** A solver aid: the nested example in its concatenated form. */
  lemma NestedUnderPrefix()
    ensures PathQueueName("api", "/Foo/Bar/") == "api" + "." + "foo-bar"
  {
    NestedSlug();
    UnderPrefix("api", "/Foo/Bar/", "foo-bar");
  }

  /** The root path `/`, and any path of slashes only, has the slug
      `index`. */
  lemma RootSlugExample()
    ensures Slug("/") == "index"
    ensures Slug("///") == "index"
  {
    RootSlug("/");
    RootSlug("///");
  }

  /** Under the prefix `api` the root path is served by `api.index`, and
      without a prefix by `index`. */
  lemma RootQueueName()
    ensures PathQueueName("api", "/") == "api.index"
    ensures PathQueueName("", "/") == "index"
  {
    RootUnderPrefix();
    RootDotted();
  }

  /** A solver aid, as `NestedDotted`. */
  lemma RootDotted()
    ensures "api" + "." + "index" == "api.index"
  {
  }

  /** A solver aid: the root example in its concatenated form. */
  lemma RootUnderPrefix()
    ensures PathQueueName("api", "/") == "api" + "." + "index"
    ensures PathQueueName("", "/") == "index"
  {
    RootSlug("/");
    UnderPrefix("api", "/", "index");
  }

  /** An instance of `PathQueueName`'s contract, with the slug given by name
      so that the examples can name it literally. */
  lemma UnderPrefix(prefix: string, path: string, slug: string)
    requires prefix != "" && Slug(path) == slug
    ensures PathQueueName(prefix, path) == prefix + "." + slug
  {
  }

  /** A static queue without a prefix keeps its given name. */
  lemma StaticNames()
    ensures StaticQueueName("", "jobs") == "jobs"
    ensures StaticQueueName("api", "jobs") == "api.jobs"
  {
  }

  lemma SlashedTrim()
    ensures Trim("/a/b", '/') == "a/b"
    ensures Trim("/a-b", '/') == "a-b"
  {
    TrimIs("/a/b", '/', 1, 4);
    assert "/a/b"[1..4] == "a/b";
    TrimIs("/a-b", '/', 1, 4);
    assert "/a-b"[1..4] == "a-b";
  }

  lemma SlashedDash()
    ensures ReplaceAll("a/b", '/', '-') == "a-b"
    ensures ReplaceAll("a-b", '/', '-') == "a-b"
  {
  }

  lemma DashedLower()
    ensures ToLower("a-b") == "a-b"
  {
  }

  /** Dashes and slashes are indistinguishable in a slug: `/a/b` and `/a-b`
      are served by one queue. The naming is kept as deployed. */
  lemma SlashDashCollide()
    ensures Slug("/a/b") == "a-b"
    ensures Slug("/a-b") == "a-b"
  {
    SlashedTrim();
    SlashedDash();
    DashedLower();
  }
}
