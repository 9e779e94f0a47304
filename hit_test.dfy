/** The menu hit tests of PlatformerLogic.cpp: pure comparisons on ints. */
module HitTest {

  /** A menu button; its label plays no part in hit testing. */
  datatype Button = Button(text: string, x: int, y: int, width: int, height: int)

  /** A point lies in a rectangle when it is within both closed extents. */
  predicate Within(v: int, low: int, extent: int)
  {
    low <= v <= low + extent
  }

  /** isPointInRect: inside exactly when within the closed horizontal extent
      and the closed vertical extent; all four edges count as inside. */
  function IsPointInRect(x: int, y: int, rectX: int, rectY: int, width: int, height: int): (r: bool)
    ensures r <==> Within(x, rectX, width) && Within(y, rectY, height)
  {
    if x < rectX || x > rectX + width then false
    else if y < rectY || y > rectY + height then false
    else true
  }

  /** isPointInButton: the same test on a button's rectangle. */
  function IsPointInButton(x: int, y: int, button: Button): (r: bool)
    ensures r <==> Within(x, button.x, button.width) && Within(y, button.y, button.height)
  {
    if x < button.x || x > button.x + button.width then false
    else if y < button.y || y > button.y + button.height then false
    else true
  }

  /** The button test is the rectangle test on the button's fields. */
  lemma ButtonIsRect(x: int, y: int, button: Button)
    ensures IsPointInButton(x, y, button) == IsPointInRect(x, y, button.x, button.y, button.width, button.height)
  {
  }

  /** Both corners of a rectangle with non-negative size are inside. */
  lemma CornersInside(rectX: int, rectY: int, width: int, height: int)
    requires width >= 0 && height >= 0
    ensures IsPointInRect(rectX, rectY, rectX, rectY, width, height)
    ensures IsPointInRect(rectX + width, rectY + height, rectX, rectY, width, height)
  {
  }

  /** A negative width or height leaves every point outside. */
  lemma NegativeSizeIsEmpty(x: int, y: int, rectX: int, rectY: int, width: int, height: int)
    requires width < 0 || height < 0
    ensures !IsPointInRect(x, y, rectX, rectY, width, height)
  {
  }

  /** Moving the point and the rectangle by the same offset keeps the answer. */
  lemma TranslationInvariant(x: int, y: int, rectX: int, rectY: int, width: int, height: int, dx: int, dy: int)
    ensures IsPointInRect(x + dx, y + dy, rectX + dx, rectY + dy, width, height) ==
            IsPointInRect(x, y, rectX, rectY, width, height)
  {
  }
}
