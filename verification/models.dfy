/** The `_embedded` section of a WordPress REST resource: related authors,
    featured media and taxonomy terms, delivered as arrays and exposed as single
    optional values. */
module Models {
  import opened Wrappers
  import Sequences

  /** Author and media records; their fields play no part in the accessors. */
  type Author(==)
  type FeaturedMedia(==)
  /** Everything a term carries besides its taxonomy. */
  type TermDetails(==)

  /** The taxonomy a term belongs to: tags, categories, or any other scheme. */
  datatype Taxonomy = Tag | Category | Other(name: string)

  datatype Term = Term(taxonomy: Taxonomy, details: TermDetails)

  /** The selection conditions of the `tag` and `category` accessors. */
  predicate IsTag(t: Term) { t.taxonomy == Tag }
  predicate IsCategory(t: Term) { t.taxonomy == Category }

  /** The three arrays decoded from the keys `author`, `wp:featuredmedia` and
      `wp:term`, kept in the order the API sent them. */
  datatype EmbeddedContent = EmbeddedContent(
    authorEntries: seq<Author>,
    featuredMediaEntries: seq<FeaturedMedia>,
    terms: seq<Term>)
  {
    /** `author`: the first decoded author, if any. */
    function FirstAuthor(): (r: Option<Author>)
      ensures r.None? <==> |authorEntries| == 0
      ensures r.Some? ==> r.value == authorEntries[0]
    {
      Sequences.First(authorEntries)
    }

    /** `featuredMedia`: the first decoded featured media entry, if any. */
    function FirstFeaturedMedia(): (r: Option<FeaturedMedia>)
      ensures r.None? <==> |featuredMediaEntries| == 0
      ensures r.Some? ==> r.value == featuredMediaEntries[0]
    {
      Sequences.First(featuredMediaEntries)
    }

    /** `tag`: the earliest term of the tag taxonomy, if any. */
    function FirstTag(): (r: Option<Term>)
      ensures r.None? <==> forall i :: 0 <= i < |terms| ==> terms[i].taxonomy != Tag
      ensures r.Some? ==> r.value.taxonomy == Tag && r.value in terms
      ensures r.Some? ==>
        exists i :: 0 <= i < |terms| && terms[i] == r.value &&
          forall j :: 0 <= j < i ==> terms[j].taxonomy != Tag
    {
      Sequences.FirstWhere(terms, IsTag)
    }

    /** `category`: the earliest term of the category taxonomy, if any. */
    function FirstCategory(): (r: Option<Term>)
      ensures r.None? <==> forall i :: 0 <= i < |terms| ==> terms[i].taxonomy != Category
      ensures r.Some? ==> r.value.taxonomy == Category && r.value in terms
      ensures r.Some? ==>
        exists i :: 0 <= i < |terms| && terms[i] == r.value &&
          forall j :: 0 <= j < i ==> terms[j].taxonomy != Category
    {
      Sequences.FirstWhere(terms, IsCategory)
    }
  }

  /** The term an optional argument contributes to a lookup: itself when present and
      selected by `p`, nothing otherwise. */
  function Selected(o: Option<Term>, p: Term -> bool): Option<Term>
  {
    if o.Some? && p(o.value) then o else None
  }

  /** `init(author:featuredMedia:tag:category:)`: each present value becomes a
      one-element array, and the terms array holds the tag argument before the
      category argument. Reading the content back through its accessors returns the
      author and media arguments unchanged, while tag and category are selected by
      taxonomy, not by the argument slot they were passed in. */
  function Make(author: Option<Author>, featuredMedia: Option<FeaturedMedia>,
                tag: Option<Term>, category: Option<Term>): (c: EmbeddedContent)
    ensures |c.authorEntries| <= 1 && |c.featuredMediaEntries| <= 1 && |c.terms| <= 2
    ensures |c.terms| == |Sequences.FromOption(tag)| + |Sequences.FromOption(category)|
    ensures tag.Some? ==> c.terms[0] == tag.value
    ensures category.Some? ==> c.terms[|c.terms| - 1] == category.value
    ensures c.FirstAuthor() == author
    ensures c.FirstFeaturedMedia() == featuredMedia
    ensures c.FirstTag() ==
      if Selected(tag, IsTag).Some? then tag else Selected(category, IsTag)
    ensures c.FirstCategory() ==
      if Selected(tag, IsCategory).Some? then tag else Selected(category, IsCategory)
  {
    var tags := Sequences.FromOption(tag);
    var categories := Sequences.FromOption(category);
    Sequences.FirstWhereAppend(tags, categories, IsTag);
    Sequences.FirstWhereAppend(tags, categories, IsCategory);
    EmbeddedContent(Sequences.FromOption(author), Sequences.FromOption(featuredMedia),
                    tags + categories)
  }

  /** With a tag-taxonomy tag argument and a category-taxonomy category argument,
      every accessor returns exactly the argument it is named after. */
  lemma MakeRoundTrip(author: Option<Author>, featuredMedia: Option<FeaturedMedia>,
                      tag: Option<Term>, category: Option<Term>)
    requires tag.Some? ==> tag.value.taxonomy == Tag
    requires category.Some? ==> category.value.taxonomy == Category
    ensures var c := Make(author, featuredMedia, tag, category);
      c.FirstAuthor() == author && c.FirstFeaturedMedia() == featuredMedia &&
      c.FirstTag() == tag && c.FirstCategory() == category
  {
  }

  /** A term passed in the `tag:` slot whose taxonomy is not the tag taxonomy is
      never what the `tag` accessor returns. */
  lemma MisfiledTagNotReturned(author: Option<Author>, featuredMedia: Option<FeaturedMedia>,
                               t: Term, category: Option<Term>)
    requires t.taxonomy != Tag
    ensures Make(author, featuredMedia, Some(t), category).FirstTag() != Some(t)
  {
  }

  /** Content built with no arguments exposes nothing. */
  lemma MakeEmpty()
    ensures var c := Make(None, None, None, None);
      c.FirstAuthor().None? && c.FirstFeaturedMedia().None? &&
      c.FirstTag().None? && c.FirstCategory().None?
  {
  }

  /** Content built from a category alone has the same arrays as content decoded
      from a payload whose only embedded entry is that term, so every accessor
      agrees between the two. */
  lemma CategoryOnlyMatchesDecoded(k: Term)
    requires k.taxonomy == Category
    ensures Make(None, None, None, Some(k)) == EmbeddedContent([], [], [k])
    ensures var c := EmbeddedContent([], [], [k]);
      c.FirstAuthor().None? && c.FirstFeaturedMedia().None? &&
      c.FirstTag().None? && c.FirstCategory() == Some(k)
  {
  }

  /** A term that is the only one of its taxonomy is found by `tag` wherever it sits
      among terms of other taxonomies. */
  lemma SoleTagFound(c: EmbeddedContent, i: int)
    requires 0 <= i < |c.terms| && c.terms[i].taxonomy == Tag
    requires forall j :: 0 <= j < |c.terms| && j != i ==> c.terms[j].taxonomy != Tag
    ensures c.FirstTag() == Some(c.terms[i])
  {
    Sequences.FirstWhereUnique(c.terms, IsTag, i);
  }

  /** The same for `category`. */
  lemma SoleCategoryFound(c: EmbeddedContent, i: int)
    requires 0 <= i < |c.terms| && c.terms[i].taxonomy == Category
    requires forall j :: 0 <= j < |c.terms| && j != i ==> c.terms[j].taxonomy != Category
    ensures c.FirstCategory() == Some(c.terms[i])
  {
    Sequences.FirstWhereUnique(c.terms, IsCategory, i);
  }

  /** A decoded `wp:term` array with one tag and one category resolves both accessors
      to their own term in either array order. */
  lemma TermOrderIrrelevant(authors: seq<Author>, media: seq<FeaturedMedia>, t: Term, k: Term)
    requires t.taxonomy == Tag && k.taxonomy == Category
    ensures var c := EmbeddedContent(authors, media, [t, k]);
      c.FirstTag() == Some(t) && c.FirstCategory() == Some(k)
    ensures var c := EmbeddedContent(authors, media, [k, t]);
      c.FirstTag() == Some(t) && c.FirstCategory() == Some(k)
  {
    SoleTagFound(EmbeddedContent(authors, media, [t, k]), 0);
    SoleCategoryFound(EmbeddedContent(authors, media, [t, k]), 1);
    SoleTagFound(EmbeddedContent(authors, media, [k, t]), 1);
    SoleCategoryFound(EmbeddedContent(authors, media, [k, t]), 0);
  }
}
