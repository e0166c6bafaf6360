/**
 * Menu management, Controllers/MenuItemController.cs: adding several dishes
 * from parallel form lists, editing dishes by id, deleting one, and storing
 * uploaded menu photos as dishes of their own. The loops work on the
 * tracked MenuItems table and save once at the end, so a list index out of
 * range (an exception) saves nothing. Writing the files is left out: a
 * non-empty upload yields the URL of its stored name.
 */
module MenuItemController {
  import opened Wrappers
  import opened Text
  import opened Tables
  import opened Entities

  const MenuItemFolder: string := "/images/menuitems/"
  const MenuUploadFolder: string := "/images/menuuploads/"

  function MenuItemId(m: MenuItem): int { m.id }

  /** The picture of form row `i`: the URL of a non-empty upload at that index, or none. */
  function ImageAt(images: seq<Option<Upload>>, i: nat): Option<string> {
    if i < |images| && images[i].Some? && images[i].value.length > 0 then Some(MenuItemFolder + images[i].value.storedName)
    else None
  }

  function NonBlank(s: string): bool { !IsNullOrWhiteSpace(s) }

  /** The parallel lists of `CreateMultiple`. */
  datatype DishForm = DishForm(
    names: seq<string>,
    prices: seq<real>,
    descriptions: seq<string>,
    categories: seq<string>,
    images: seq<Option<Upload>>)

  /** Whether row `i` of the form has a price, description and category. */
  predicate RowComplete(form: DishForm, i: nat) {
    i < |form.prices| && i < |form.descriptions| && i < |form.categories|
  }

  /**
   * The table after the rows `i..` of `CreateMultiple`: a blank name is
   * skipped, any other row adds a dish, and a row missing its price,
   * description or category throws (`None`).
   */
  function CreateFrom(items: seq<MenuItem>, restaurantId: int, form: DishForm, i: nat): Option<seq<MenuItem>>
    decreases |form.names| - i
  {
    if i >= |form.names| then Some(items)
    else if !NonBlank(form.names[i]) then CreateFrom(items, restaurantId, form, i + 1)
    else if !RowComplete(form, i) then None
    else
      var dish := MenuItem(NextId(items, MenuItemId), restaurantId, form.names[i], form.descriptions[i], form.prices[i],
                           ImageAt(form.images, i), form.categories[i]);
      CreateFrom(items + [dish], restaurantId, form, i + 1)
  }

  /**
   * `CreateMultiple` fails exactly when a non-blank row lacks a value; when
   * it succeeds it keeps the table and adds one dish of the restaurant per
   * non-blank name, in order, none of them blank.
   */
  lemma {:induction false} CreateFromFacts(items: seq<MenuItem>, restaurantId: int, form: DishForm, i: nat)
    requires i <= |form.names|
    ensures CreateFrom(items, restaurantId, form, i).None? <==>
      exists j :: i <= j < |form.names| && NonBlank(form.names[j]) && !RowComplete(form, j)
    ensures CreateFrom(items, restaurantId, form, i).Some? ==>
      var r := CreateFrom(items, restaurantId, form, i).value;
      && |r| == |items| + Count(form.names[i..], NonBlank)
      && r[..|items|] == items
      && forall j :: |items| <= j < |r| ==> r[j].restaurantId == restaurantId && NonBlank(r[j].name)
    decreases |form.names| - i
  {
    if i < |form.names| {
      assert form.names[i..][1..] == form.names[i + 1..];
      if !NonBlank(form.names[i]) {
        CreateFromFacts(items, restaurantId, form, i + 1);
      } else if RowComplete(form, i) {
        var dish := MenuItem(NextId(items, MenuItemId), restaurantId, form.names[i], form.descriptions[i], form.prices[i],
                             ImageAt(form.images, i), form.categories[i]);
        CreateFromFacts(items + [dish], restaurantId, form, i + 1);
        var next := CreateFrom(items + [dish], restaurantId, form, i + 1);
        if next.Some? {
          var r := next.value;
          assert r[..|items| + 1][..|items|] == r[..|items|];
        }
      }
    }
  }

  /** The non-blank rows from `i` on, in form order: the rows `CreateMultiple` turns into dishes. */
  function KeptRows(names: seq<string>, i: nat): seq<nat>
    decreases |names| - i
  {
    if i >= |names| then []
    else if NonBlank(names[i]) then [i] + KeptRows(names, i + 1)
    else KeptRows(names, i + 1)
  }

  /** `KeptRows` lists every non-blank row from `i` on, and only those, in increasing order. */
  lemma {:induction false} KeptRowsExact(names: seq<string>, i: nat)
    ensures forall t :: 0 <= t < |KeptRows(names, i)| ==>
              i <= KeptRows(names, i)[t] < |names| && NonBlank(names[KeptRows(names, i)[t]])
    ensures forall t, u :: 0 <= t < u < |KeptRows(names, i)| ==> KeptRows(names, i)[t] < KeptRows(names, i)[u]
    ensures forall j :: i <= j < |names| && NonBlank(names[j]) ==> j in KeptRows(names, i)
    decreases |names| - i
  {
    if i < |names| {
      KeptRowsExact(names, i + 1);
      var rest := KeptRows(names, i + 1);
      if NonBlank(names[i]) {
        assert KeptRows(names, i) == [i] + rest;
        forall t | 0 <= t < |rest| + 1
          ensures i <= ([i] + rest)[t] < |names| && NonBlank(names[([i] + rest)[t]])
        {
          if t > 0 {
            assert ([i] + rest)[t] == rest[t - 1];
          }
        }
        forall t, u | 0 <= t < u < |rest| + 1
          ensures ([i] + rest)[t] < ([i] + rest)[u]
        {
          assert ([i] + rest)[u] == rest[u - 1];
          if t > 0 {
            assert ([i] + rest)[t] == rest[t - 1];
          }
        }
      }
    }
  }

  /** Dish `d` is made from form row `j`: the restaurant, and that row's name, description, price, category and picture. */
  predicate FromRow(d: MenuItem, restaurantId: int, form: DishForm, j: nat) {
    && j < |form.names| && RowComplete(form, j)
    && d.restaurantId == restaurantId && d.name == form.names[j] && d.description == form.descriptions[j]
    && d.price == form.prices[j] && d.category == form.categories[j] && d.imageUrl == ImageAt(form.images, j)
  }

  /**
   * When `CreateMultiple` succeeds, the new dishes are the non-blank rows
   * in form order, the t-th new dish made from the t-th non-blank row.
   */
  lemma {:induction false} CreateFromRows(items: seq<MenuItem>, restaurantId: int, form: DishForm, i: nat)
    requires i <= |form.names|
    requires CreateFrom(items, restaurantId, form, i).Some?
    ensures var r := CreateFrom(items, restaurantId, form, i).value;
      var rows := KeptRows(form.names, i);
      && |r| == |items| + |rows|
      && r[..|items|] == items
      && forall t :: 0 <= t < |rows| ==> FromRow(r[|items| + t], restaurantId, form, rows[t])
    decreases |form.names| - i
  {
    if i < |form.names| {
      if !NonBlank(form.names[i]) {
        CreateFromRows(items, restaurantId, form, i + 1);
      } else {
        var dish := MenuItem(NextId(items, MenuItemId), restaurantId, form.names[i], form.descriptions[i], form.prices[i],
                             ImageAt(form.images, i), form.categories[i]);
        assert CreateFrom(items, restaurantId, form, i) == CreateFrom(items + [dish], restaurantId, form, i + 1);
        CreateFromRows(items + [dish], restaurantId, form, i + 1);
        assert KeptRows(form.names, i) == [i] + KeptRows(form.names, i + 1);
        PrependRow(items, dish, restaurantId, form, i, KeptRows(form.names, i + 1),
                   CreateFrom(items + [dish], restaurantId, form, i + 1).value);
      }
    }
  }

  /** One kept row: the dish of row `i` sits right after the old table, then the dishes of the later rows. */
  lemma PrependRow(items: seq<MenuItem>, dish: MenuItem, restaurantId: int, form: DishForm, i: nat, rest: seq<nat>, r: seq<MenuItem>)
    requires FromRow(dish, restaurantId, form, i)
    requires |r| == |items| + 1 + |rest| && r[..|items| + 1] == items + [dish]
    requires forall t :: 0 <= t < |rest| ==> FromRow(r[|items| + 1 + t], restaurantId, form, rest[t])
    ensures |r| == |items| + |[i] + rest| && r[..|items|] == items
    ensures forall t :: 0 <= t < |[i] + rest| ==> FromRow(r[|items| + t], restaurantId, form, ([i] + rest)[t])
  {
    assert r[..|items|] == r[..|items| + 1][..|items|];
    assert r[|items|] == r[..|items| + 1][|items|];
    forall t | 0 <= t < |[i] + rest|
      ensures FromRow(r[|items| + t], restaurantId, form, ([i] + rest)[t])
    {
      if t > 0 {
        assert r[|items| + t] == r[|items| + 1 + (t - 1)];
      }
    }
  }

  datatype BatchResult = BatchCrashed | BatchSaved

  /** `CreateMultiple`: follows `CreateFrom` from the first row, saving only if no row throws. */
  method CreateMultiple(db: AppDbContext, restaurantId: int, form: DishForm) returns (r: BatchResult)
    modifies db`menuItems
    ensures r.BatchSaved? <==> CreateFrom(old(db.menuItems), restaurantId, form, 0).Some?
    ensures db.menuItems == CreateFrom(old(db.menuItems), restaurantId, form, 0).GetOr(old(db.menuItems))
  {
    var items := db.menuItems;
    var i := 0;
    while i < |form.names|
      invariant 0 <= i <= |form.names|
      invariant CreateFrom(items, restaurantId, form, i) == CreateFrom(db.menuItems, restaurantId, form, 0)
      invariant db.menuItems == old(db.menuItems)
    {
      if NonBlank(form.names[i]) {
        if !RowComplete(form, i) {
          return BatchCrashed;
        }
        var dish := MenuItem(NextId(items, MenuItemId), restaurantId, form.names[i], form.descriptions[i], form.prices[i],
                             ImageAt(form.images, i), form.categories[i]);
        items := items + [dish];
      }
      i := i + 1;
    }
    db.menuItems := items;
    r := BatchSaved;
  }

  /** The parallel lists of `Edit`. */
  datatype EditForm = EditForm(
    itemIds: seq<int>,
    names: seq<string>,
    prices: seq<real>,
    descriptions: seq<string>,
    images: seq<Option<Upload>>)

  /** A dish after an edit: name, price and description from the form; the picture only when one is uploaded. */
  function EditedItem(item: MenuItem, name: string, price: real, description: string, image: Option<string>): MenuItem {
    item.(name := name, price := price, description := description, imageUrl := if image.Some? then image else item.imageUrl)
  }

  /**
   * The table after the rows `i..` of `Edit`: an id that is not found is
   * skipped; a found dish takes the row's values; a row missing a name,
   * price or description throws (`None`).
   */
  function EditFrom(items: seq<MenuItem>, form: EditForm, i: nat): Option<seq<MenuItem>>
    decreases |form.itemIds| - i
  {
    if i >= |form.itemIds| then Some(items)
    else
      match FindMenuItem(items, form.itemIds[i])
      case None => EditFrom(items, form, i + 1)
      case Some(k) =>
        if i >= |form.names| || i >= |form.prices| || i >= |form.descriptions| then None
        else
          EditFrom(items[k := EditedItem(items[k], form.names[i], form.prices[i], form.descriptions[i], ImageAt(form.images, i))],
                   form, i + 1)
  }

  /**
   * An edit keeps the table's rows in place: every dish keeps its id,
   * restaurant and category; a dish whose id the form does not list is
   * untouched; and a dish keeps its picture unless a row uploads one. The
   * form's restaurant plays no part: a listed dish of another restaurant is
   * edited too.
   */
  lemma {:induction false} EditFromFacts(items: seq<MenuItem>, form: EditForm, i: nat)
    requires i <= |form.itemIds|
    requires EditFrom(items, form, i).Some?
    ensures var r := EditFrom(items, form, i).value;
      && |r| == |items|
      && (forall j :: 0 <= j < |r| ==>
            r[j].id == items[j].id && r[j].restaurantId == items[j].restaurantId && r[j].category == items[j].category)
      && (forall j :: 0 <= j < |r| && items[j].id !in form.itemIds[i..] ==> r[j] == items[j])
      && (forall j :: 0 <= j < |r| && (forall n :: i <= n < |form.itemIds| ==> ImageAt(form.images, n).None?)
                      ==> r[j].imageUrl == items[j].imageUrl)
    decreases |form.itemIds| - i
  {
    if i < |form.itemIds| {
      assert form.itemIds[i..] == [form.itemIds[i]] + form.itemIds[i + 1..];
      match FindMenuItem(items, form.itemIds[i])
      case None =>
        assert EditFrom(items, form, i) == EditFrom(items, form, i + 1);
        EditFromFacts(items, form, i + 1);
      case Some(k) =>
        var next := items[k := EditedItem(items[k], form.names[i], form.prices[i], form.descriptions[i], ImageAt(form.images, i))];
        assert EditFrom(items, form, i) == EditFrom(next, form, i + 1);
        EditFromFacts(next, form, i + 1);
        assert items[k].id == form.itemIds[i];
    }
  }

  /** Dish `d` carries the name, price and description of form row `n`. */
  predicate TakesRow(d: MenuItem, form: EditForm, n: nat) {
    n < |form.names| && n < |form.prices| && n < |form.descriptions|
    && d.name == form.names[n] && d.price == form.prices[n] && d.description == form.descriptions[n]
  }

  /**
   * What an edited dish becomes: a dish that changed is listed by a row
   * from `i` on whose name, price and description it carries, and its
   * picture is the old one or the upload of a row listing it.
   */
  lemma {:induction false} EditFromRows(items: seq<MenuItem>, form: EditForm, i: nat)
    requires i <= |form.itemIds|
    requires EditFrom(items, form, i).Some?
    ensures var r := EditFrom(items, form, i).value;
      && |r| == |items|
      && (forall j :: 0 <= j < |r| && r[j] != items[j] ==>
            exists n :: i <= n < |form.itemIds| && form.itemIds[n] == items[j].id && TakesRow(r[j], form, n))
      && (forall j :: 0 <= j < |r| && r[j].imageUrl != items[j].imageUrl ==>
            exists n :: i <= n < |form.itemIds| && form.itemIds[n] == items[j].id
                        && ImageAt(form.images, n).Some? && r[j].imageUrl == ImageAt(form.images, n))
    decreases |form.itemIds| - i
  {
    EditFromFacts(items, form, i);
    if i < |form.itemIds| {
      match FindMenuItem(items, form.itemIds[i])
      case None =>
        assert EditFrom(items, form, i) == EditFrom(items, form, i + 1);
        EditFromRows(items, form, i + 1);
      case Some(k) =>
        var next := items[k := EditedItem(items[k], form.names[i], form.prices[i], form.descriptions[i], ImageAt(form.images, i))];
        assert EditFrom(items, form, i) == EditFrom(next, form, i + 1);
        EditFromRows(next, form, i + 1);
        var r := EditFrom(items, form, i).value;
        assert items[k].id == form.itemIds[i];
        assert TakesRow(next[k], form, i);
        forall j | 0 <= j < |r| && r[j] != items[j]
          ensures exists n :: i <= n < |form.itemIds| && form.itemIds[n] == items[j].id && TakesRow(r[j], form, n)
        {
          if r[j] == next[j] {
            assert j == k;
            assert TakesRow(r[j], form, i);
          } else {
            assert next[j].id == items[j].id;
          }
        }
        forall j | 0 <= j < |r| && r[j].imageUrl != items[j].imageUrl
          ensures exists n :: i <= n < |form.itemIds| && form.itemIds[n] == items[j].id
                              && ImageAt(form.images, n).Some? && r[j].imageUrl == ImageAt(form.images, n)
        {
          if r[j].imageUrl == next[j].imageUrl {
            assert j == k;
            assert r[j].imageUrl == ImageAt(form.images, i);
          } else {
            assert next[j].id == items[j].id;
          }
        }
    }
  }

  /** `Edit` (POST): follows `EditFrom` from the first row, saving only if no row throws. */
  method Edit(db: AppDbContext, form: EditForm) returns (r: BatchResult)
    modifies db`menuItems
    ensures r.BatchSaved? <==> EditFrom(old(db.menuItems), form, 0).Some?
    ensures db.menuItems == EditFrom(old(db.menuItems), form, 0).GetOr(old(db.menuItems))
  {
    var items := db.menuItems;
    var i := 0;
    while i < |form.itemIds|
      invariant 0 <= i <= |form.itemIds|
      invariant EditFrom(items, form, i) == EditFrom(db.menuItems, form, 0)
      invariant db.menuItems == old(db.menuItems)
    {
      var found := FindMenuItem(items, form.itemIds[i]);
      if found.Some? {
        if i >= |form.names| || i >= |form.prices| || i >= |form.descriptions| {
          assert EditFrom(items, form, i).None?;
          return BatchCrashed;
        }
        var k := found.value;
        var next := items[k := EditedItem(items[k], form.names[i], form.prices[i], form.descriptions[i], ImageAt(form.images, i))];
        assert EditFrom(items, form, i) == EditFrom(next, form, i + 1);
        items := next;
      } else {
        assert EditFrom(items, form, i) == EditFrom(items, form, i + 1);
      }
      i := i + 1;
    }
    db.menuItems := items;
    r := BatchSaved;
  }

  datatype DeleteResult = DishNotFound | DishDeleted(restaurantId: int)

  /** `Delete(id)`: a missing dish is NotFound; otherwise that one row is removed and its restaurant returned. */
  method Delete(db: AppDbContext, id: int) returns (r: DeleteResult)
    modifies db`menuItems
    ensures r.DishNotFound? <==> FindMenuItem(old(db.menuItems), id).None?
    ensures r.DishNotFound? ==> db.menuItems == old(db.menuItems)
    ensures r.DishDeleted? ==>
      var k := FindMenuItem(old(db.menuItems), id).value;
      && r.restaurantId == old(db.menuItems)[k].restaurantId
      && db.menuItems == old(db.menuItems)[..k] + old(db.menuItems)[k + 1..]
  {
    var found := FindMenuItem(db.menuItems, id);
    if found.None? {
      return DishNotFound;
    }
    var k := found.value;
    r := DishDeleted(db.menuItems[k].restaurantId);
    db.menuItems := db.menuItems[..k] + db.menuItems[k + 1..];
  }

  /** With ids unique, the deleted dish is gone and every other dish remains. */
  lemma DeleteRemovesOnlyThatDish(items: seq<MenuItem>, id: int)
    requires forall i, j :: 0 <= i < j < |items| ==> items[i].id != items[j].id
    requires FindMenuItem(items, id).Some?
    ensures var k := FindMenuItem(items, id).value;
      var after := items[..k] + items[k + 1..];
      && FindMenuItem(after, id).None?
      && forall m :: m in items && m.id != id ==> m in after
  {
    var k := FindMenuItem(items, id).value;
    var after := items[..k] + items[k + 1..];
    forall j | 0 <= j < |after| ensures after[j].id != id {
      if j < k { assert after[j] == items[j]; } else { assert after[j] == items[j + 1]; }
    }
    forall m | m in items && m.id != id ensures m in after {
      var j :| 0 <= j < |items| && items[j] == m;
      if j < k { assert after[j] == m; } else { assert j != k; assert after[j - 1] == m; }
    }
  }

  /** A photo stored as a dish of the menu. */
  function MenuPhoto(id: int, restaurantId: int, u: Upload): MenuItem {
    MenuItem(id, restaurantId, "Ảnh thực đơn", "Menu hình ảnh tải lên", 0.0, Some(MenuUploadFolder + u.storedName), "Menu ảnh")
  }

  function IsPhoto(image: Option<Upload>): bool { image.Some? && image.value.length > 0 }

  /** The `ImageUrl` a photo dish gets for an uploaded image. */
  function PhotoUrl(image: Option<Upload>): Option<string> {
    if image.Some? then Some(MenuUploadFolder + image.value.storedName) else None
  }

  function DishImage(m: MenuItem): Option<string> { m.imageUrl }

  /** The table after the uploads: one photo dish of the restaurant per non-empty image, in order. */
  function WithMenuPhotos(items: seq<MenuItem>, restaurantId: int, images: seq<Option<Upload>>): (r: seq<MenuItem>)
    ensures |r| == |items| + Count(images, IsPhoto)
    ensures r[..|items|] == items
    ensures forall j :: |items| <= j < |r| ==>
              && r[j].restaurantId == restaurantId && r[j].price == 0.0 && r[j].category == "Menu ảnh"
              && r[j].name == "Ảnh thực đơn" && r[j].imageUrl.Some?
    decreases |images|
  {
    if |images| == 0 then items
    else
      var init := images[..|images| - 1];
      var last := images[|images| - 1];
      var before := WithMenuPhotos(items, restaurantId, init);
      assert images == init + [last];
      CountAppend(init, [last], IsPhoto);
      if IsPhoto(last) then
        var r := before + [MenuPhoto(NextId(before, MenuItemId), restaurantId, last.value)];
        assert r[..|items|] == before[..|items|];
        r
      else before
  }

  /** The new photo dishes carry the uploaded images' URLs, one per non-empty image, in upload order. */
  lemma {:induction false} MenuPhotosInOrder(items: seq<MenuItem>, restaurantId: int, images: seq<Option<Upload>>)
    ensures Select(WithMenuPhotos(items, restaurantId, images)[|items|..], DishImage) == Select(Where(images, IsPhoto), PhotoUrl)
    decreases |images|
  {
    if |images| > 0 {
      var init, last := images[..|images| - 1], images[|images| - 1];
      assert images == init + [last];
      MenuPhotosInOrder(items, restaurantId, init);
      MenuPhotosStep(items, restaurantId, init, last);
    }
  }

  /** The induction step of `MenuPhotosInOrder`: one more image at the end. */
  lemma MenuPhotosStep(items: seq<MenuItem>, restaurantId: int, init: seq<Option<Upload>>, last: Option<Upload>)
    requires Select(WithMenuPhotos(items, restaurantId, init)[|items|..], DishImage) == Select(Where(init, IsPhoto), PhotoUrl)
    ensures Select(WithMenuPhotos(items, restaurantId, init + [last])[|items|..], DishImage) == Select(Where(init + [last], IsPhoto), PhotoUrl)
  {
    var before := WithMenuPhotos(items, restaurantId, init);
    WithMenuPhotosLast(items, restaurantId, init, last);
    WhereSnoc(init, last, IsPhoto);
    if IsPhoto(last) {
      var photo := MenuPhoto(NextId(before, MenuItemId), restaurantId, last.value);
      DropSnoc(before, photo, |items|);
      SelectSnoc(before[|items|..], photo, DishImage);
      SelectSnoc(Where(init, IsPhoto), last, PhotoUrl);
    }
  }

  /** One step of `WithMenuPhotos`: the last image adds a photo dish when it is non-empty. */
  lemma WithMenuPhotosLast(items: seq<MenuItem>, restaurantId: int, init: seq<Option<Upload>>, last: Option<Upload>)
    ensures var before := WithMenuPhotos(items, restaurantId, init);
      WithMenuPhotos(items, restaurantId, init + [last])
      == if IsPhoto(last) then before + [MenuPhoto(NextId(before, MenuItemId), restaurantId, last.value)] else before
  {
    assert (init + [last])[..|init|] == init;
  }

  datatype UploadResult = NoImages | PhotosSaved

  /** `UploadMenuImage`: no images is BadRequest; otherwise every non-empty image becomes a photo dish. */
  method UploadMenuImage(db: AppDbContext, restaurantId: int, images: seq<Option<Upload>>) returns (r: UploadResult)
    modifies db`menuItems
    ensures r.NoImages? <==> |images| == 0
    ensures db.menuItems == WithMenuPhotos(old(db.menuItems), restaurantId, images)
  {
    if |images| == 0 {
      return NoImages;
    }
    var i := 0;
    while i < |images|
      invariant 0 <= i <= |images|
      invariant db.menuItems == WithMenuPhotos(old(db.menuItems), restaurantId, images[..i])
    {
      assert images[..i + 1][..i] == images[..i];
      if IsPhoto(images[i]) {
        db.menuItems := db.menuItems + [MenuPhoto(NextId(db.menuItems, MenuItemId), restaurantId, images[i].value)];
      }
      i := i + 1;
    }
    assert images[..|images|] == images;
    r := PhotosSaved;
  }
}
