/**
 * The page's state (`TechrhymCoursePage`): the selected course and batch, the
 * search text, and the size of the visible window, with the handlers that
 * change them and the reset of the window whenever the selection or the
 * search changes.
 */
module Page {
  import opened Text
  import opened Lectures
  import opened Catalog
  import Curriculum

  /** The window grows by, and resets to, this many rows. */
  const PageSize: nat := 20

  class CatalogPage {
    /** The static plans; the page never changes them. */
    const plans: Plans
    var courseType: CourseType
    var schoolBatch: SchoolBatch
    var searchTerm: string
    var visibleCount: nat

    /**
     * The window is 20·k rows with k >= 1, and once it is wider than one page
     * it is less than a page past the end of the filtered rows (it grows only
     * while rows are hidden).
     */
    ghost predicate Valid()
      reads this
    {
      && visibleCount >= PageSize && visibleCount % PageSize == 0
      && (visibleCount == PageSize || visibleCount - PageSize < |Results()|)
    }

    function ActivePlan(): seq<LectureRow>
      reads this
    {
      CurrentPlan(plans, courseType, schoolBatch)
    }

    function Results(): seq<LectureRow>
      reads this
    {
      Filtered(ActivePlan(), searchTerm)
    }

    function ShownRows(): seq<LectureRow>
      reads this
    {
      Shown(Results(), visibleCount)
    }

    function LoadMoreOffered(): bool
      reads this
    {
      CanLoadMore(Results(), visibleCount)
    }

    /** The initial state: school, English batch, empty search, one page of rows. */
    constructor (plans: Plans)
      ensures Valid() && this.plans == plans
      ensures courseType == School && schoolBatch == English && searchTerm == "" && visibleCount == PageSize
      ensures Results() == plans.english
      ensures ShownRows() == plans.english[..Min(PageSize, |plans.english|)]
      ensures LoadMoreOffered() <==> |plans.english| > PageSize
    {
      this.plans := plans;
      courseType, schoolBatch, searchTerm, visibleCount := School, English, "", PageSize;
      new;
      FilterBlankIsIdentity(plans.english, "");
    }

    /** A course tab click; a different course resets the window, the same one changes nothing. */
    method SetCourse(c: CourseType)
      requires Valid()
      modifies this
      ensures Valid()
      ensures courseType == c && schoolBatch == old(schoolBatch) && searchTerm == old(searchTerm)
      ensures visibleCount == if c == old(courseType) then old(visibleCount) else PageSize
    {
      if c != courseType {
        courseType, visibleCount := c, PageSize;
      }
    }

    /** A batch tab click; a different batch resets the window, the same one changes nothing. */
    method SetBatch(b: SchoolBatch)
      requires Valid()
      modifies this
      ensures Valid()
      ensures schoolBatch == b && courseType == old(courseType) && searchTerm == old(searchTerm)
      ensures visibleCount == if b == old(schoolBatch) then old(visibleCount) else PageSize
    {
      if b != schoolBatch {
        schoolBatch, visibleCount := b, PageSize;
      }
    }

    /** A keystroke in the search box; a different text resets the window, the same text changes nothing. */
    method SetSearch(s: string)
      requires Valid()
      modifies this
      ensures Valid()
      ensures searchTerm == s && courseType == old(courseType) && schoolBatch == old(schoolBatch)
      ensures visibleCount == if s == old(searchTerm) then old(visibleCount) else PageSize
    {
      if s != searchTerm {
        searchTerm, visibleCount := s, PageSize;
      }
    }

    /**
     * The "Load more" button, rendered only while rows are hidden: one more page,
     * the rows already shown stay in front, and at least one more row appears.
     */
    method LoadMore()
      requires Valid() && LoadMoreOffered()
      modifies this
      ensures Valid()
      ensures visibleCount == old(visibleCount) + PageSize
      ensures courseType == old(courseType) && schoolBatch == old(schoolBatch) && searchTerm == old(searchTerm)
      ensures old(ShownRows()) == ShownRows()[..|old(ShownRows())|]
      ensures |ShownRows()| > |old(ShownRows())|
    {
      ghost var results := Results();
      WiderWindowExtends(results, visibleCount, visibleCount + PageSize);
      visibleCount := visibleCount + PageSize;
      assert Results() == results;
    }
  }

  /**
   * The default session on the shipped catalog: open the page, load one more
   * page of the 47 English rows, then type a search.
   */
  method DefaultSession(plans: Plans)
    requires plans.english == Curriculum.SchoolEnglishPlan
  {
    Curriculum.SchoolEnglishPlanShape();
    var page := new CatalogPage(plans);
    assert page.ShownRows() == Curriculum.SchoolEnglishPlan[..20];
    page.LoadMore();
    assert page.visibleCount == 40;
    assert page.ShownRows() == Curriculum.SchoolEnglishPlan[..40];
    assert page.LoadMoreOffered();
    page.SetSearch("pronunciation");
    assert page.visibleCount == 20;
  }
}
