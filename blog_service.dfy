/** Paged category listing: offset and page-count arithmetic in Java `int`.
    The two mapper queries are supplied as functions. */
module BlogService {
  import opened Common

  /** A row count as the mapper returns it. */
  type Count = x: int | 0 <= x <= IntMax

  /** The category mapper's two paging queries: rows for (limit, offset,
      search), and the number of rows matching the search. */
  datatype BlogMapper<Category> = BlogMapper(
    selectBlogCategoriesPaged: (Int32, Int32, Option<string>) -> seq<Category>,
    countBlogCategoriesPaged: Option<string> -> Count)

  /** The result map of the listing, one field per key. */
  datatype CategoryPage<Category> = CategoryPage(
    content: seq<Category>,
    totalPages: Int32,
    totalElements: Int32,
    page: Int32,
    size: Int32,
    lastPage: Int32)

  /** `(page - 1) * size` with both operations wrapping as Java `int`. */
  function Offset(page: Int32, size: Int32): Int32
  {
    WrapInt(WrapInt(page - 1) * size)
  }

  /** `(int) Math.ceil((double) totalElements / size)` for a non-negative
      count. For a count and size that fit in `int` the double quotient
      never rounds across an integer, so this is integer ceiling division
      for a positive size and negated floor division for a negative one;
      for size 0 the quotient is +Infinity (cast to `Integer.MAX_VALUE`)
      or NaN when the count is 0 (cast to 0). */
  function TotalPages(totalElements: Count, size: Int32): Int32
  {
    if size > 0 then (totalElements + size - 1) / size
    else if size < 0 then -(totalElements / (0 - size as int))
    else if totalElements == 0 then 0
    else IntMax
  }

  function GetCategoriesPaged<Category>(mapper: BlogMapper<Category>, page: Int32, size: Int32,
                                       search: Option<string>): CategoryPage<Category>
  {
    var offset := Offset(page, size);
    var content := mapper.selectBlogCategoriesPaged(size, offset, search);
    var totalElements := mapper.countBlogCategoriesPaged(search);
    var totalPages := TotalPages(totalElements, size);
    CategoryPage(content, totalPages, totalElements, page, size, totalPages)
  }

  /** For a positive size the page count is the ceiling of count / size:
      enough pages for every row, and no empty last page. */
  lemma TotalPagesIsCeiling(totalElements: Count, size: Int32)
    requires size > 0
    ensures var p := TotalPages(totalElements, size);
      && 0 <= p
      && p * size >= totalElements
      && (totalElements > 0 ==> (p - 1) * size < totalElements)
  {
  }

  /** No rows means no pages, whatever the size. */
  lemma NoRowsNoPages(size: Int32)
    ensures TotalPages(0, size) == 0
  {
    if size > 0 {
      assert (size - 1) / size == 0;
    } else if size < 0 {
      assert 0 / (0 - size as int) == 0;
    }
  }

  /** The listing echoes page, size and the count, reports the page count
      twice (`lastPage` is `totalPages`), and asks the mapper for `size`
      rows at the computed offset. */
  lemma PagedFields<Category>(mapper: BlogMapper<Category>, page: Int32, size: Int32, search: Option<string>)
    ensures var r := GetCategoriesPaged(mapper, page, size, search);
      && r.page == page && r.size == size
      && r.totalElements == mapper.countBlogCategoriesPaged(search)
      && r.lastPage == r.totalPages == TotalPages(r.totalElements, size)
      && r.content == mapper.selectBlogCategoriesPaged(size, Offset(page, size), search)
  {
  }

  /** Without overflow the offset is the arithmetic (page - 1) * size, so
      page 1 starts at row 0 and an unvalidated page <= 0 with a
      non-negative size gives an offset <= 0. */
  lemma OffsetWithoutOverflow(page: Int32, size: Int32)
    requires IntMin < page && IntMin <= (page - 1) * size <= IntMax
    ensures Offset(page, size) == (page - 1) * size
    ensures page == 1 ==> Offset(page, size) == 0
    ensures page <= 0 && size >= 0 ==> Offset(page, size) <= 0
  {
  }

  /** The page is not validated and both operations wrap: with size 1 the
      smallest page gives the largest positive offset, with size 2 it gives
      -2, and a page <= 0 with a positive size can still give a positive
      offset once the product wraps (page -0x3fff_ffff, size 3). */
  lemma OffsetWrapsForSmallestPage()
    ensures Offset(IntMin, 1) == IntMax
    ensures Offset(IntMin, 2) == -2
    ensures Offset(-0x3fff_ffff, 3) == 0x4000_0000
  {
  }
}
