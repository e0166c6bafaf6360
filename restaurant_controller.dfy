/**
 * Restaurant management, Controllers/RestaurantController.cs: creating a
 * restaurant with its uploaded pictures (a staff member's restaurant waits
 * for approval and is linked to them) and editing one (a staff member's edit
 * withdraws the approval). Writing the files is left out: a non-empty upload
 * yields the URL of its stored name.
 */
module RestaurantController {
  import opened Wrappers
  import opened Text
  import opened Tables
  import opened Entities
  import HomeController

  /** Where restaurant pictures are served from. */
  const ImageFolder: string := "/images/restaurants/"

  function HasContent(f: Upload): bool { f.length > 0 }

  function StoredUrl(f: Upload): string { ImageFolder + f.storedName }

  /** The URLs of the non-empty uploads, in upload order. */
  function UploadedUrls(files: seq<Upload>): (urls: seq<string>)
    ensures |urls| <= |files|
    ensures forall u :: u in urls ==> exists i :: 0 <= i < |files| && files[i].length > 0 && u == ImageFolder + files[i].storedName
    ensures forall i :: 0 <= i < |files| && files[i].length > 0 ==> ImageFolder + files[i].storedName in urls
    decreases |files|
  {
    if |files| == 0 then []
    else
      var init := files[..|files| - 1];
      var last := files[|files| - 1];
      var rest := UploadedUrls(init);
      assert forall i :: 0 <= i < |init| ==> init[i] == files[i];
      if last.length > 0 then rest + [ImageFolder + last.storedName] else rest
  }

  /** Exactly one URL per non-empty upload, in upload order. */
  lemma {:induction false} UploadedUrlsInOrder(files: seq<Upload>)
    ensures UploadedUrls(files) == Select(Where(files, HasContent), StoredUrl)
    ensures |UploadedUrls(files)| == Count(files, HasContent)
    decreases |files|
  {
    if |files| > 0 {
      var init, last := files[..|files| - 1], files[|files| - 1];
      assert files == init + [last];
      UploadedUrlsInOrder(init);
      UploadedUrlsStep(init, last);
    }
    WhereCount(files, HasContent);
  }

  /** The induction step of `UploadedUrlsInOrder`: one more upload at the end. */
  lemma UploadedUrlsStep(init: seq<Upload>, last: Upload)
    requires UploadedUrls(init) == Select(Where(init, HasContent), StoredUrl)
    ensures UploadedUrls(init + [last]) == Select(Where(init + [last], HasContent), StoredUrl)
  {
    assert (init + [last])[..|init|] == init;
    WhereSnoc(init, last, HasContent);
    if HasContent(last) {
      SelectSnoc(Where(init, HasContent), last, StoredUrl);
    }
  }

  /** The upload loop of `Create`: one URL per non-empty file. */
  method SaveUploads(files: seq<Upload>) returns (urls: seq<string>)
    ensures urls == UploadedUrls(files)
  {
    urls := [];
    var i := 0;
    while i < |files|
      invariant 0 <= i <= |files|
      invariant urls == UploadedUrls(files[..i])
    {
      assert files[..i + 1][..i] == files[..i];
      if files[i].length > 0 {
        urls := urls + [ImageFolder + files[i].storedName];
      }
      i := i + 1;
    }
    assert files[..|files|] == files;
  }

  /**
   * The stored `ImageUrl` gives back the uploaded URLs when split at ';',
   * as long as there is at least one and no stored name holds a ';'.
   */
  lemma ImageUrlRoundTrip(files: seq<Upload>)
    requires |UploadedUrls(files)| >= 1
    requires forall i :: 0 <= i < |files| ==> ';' !in files[i].storedName
    ensures Split(Join(UploadedUrls(files), ";"), ';') == UploadedUrls(files)
  {
    var urls := UploadedUrls(files);
    forall j | 0 <= j < |urls| ensures ';' !in urls[j] {
      assert urls[j] in urls;
      var i :| 0 <= i < |files| && files[i].length > 0 && urls[j] == ImageFolder + files[i].storedName;
    }
    SplitJoin(urls, ';');
  }

  function RestaurantId(r: Restaurant): int { r.id }

  datatype CreateResult = CreateInvalid | Created(id: int)

  /** The restaurant `Create` stores: a new id, the joined picture URLs, and approval unless a staff member adds it. */
  function NewRestaurant(restaurants: seq<Restaurant>, form: Restaurant, files: seq<Upload>, isStaff: bool): (r: Restaurant)
    ensures r.id == NextId(restaurants, RestaurantId) && FindRestaurant(restaurants, r.id).None?
    ensures r.imageUrl == Join(UploadedUrls(files), ";")
    ensures r.isApproved <==> !isStaff
    ensures r.(id := form.id, imageUrl := form.imageUrl, isApproved := form.isApproved) == form
  {
    form.(id := NextId(restaurants, RestaurantId), imageUrl := Join(UploadedUrls(files), ";"), isApproved := !isStaff)
  }

  /**
   * `Create(restaurant, ImageFiles)` (POST): an invalid form changes
   * nothing; otherwise the restaurant is stored, and a staff member's
   * restaurant is linked to them.
   */
  method Create(db: AppDbContext, form: Restaurant, files: seq<Upload>, modelValid: bool, isStaff: bool, userId: string)
    returns (r: CreateResult)
    modifies db`restaurants, db`staffRestaurants
    ensures !modelValid ==>
      && r == CreateInvalid
      && db.restaurants == old(db.restaurants) && db.staffRestaurants == old(db.staffRestaurants)
    ensures modelValid ==>
      var stored := NewRestaurant(old(db.restaurants), form, files, isStaff);
      && r == Created(stored.id)
      && db.restaurants == old(db.restaurants) + [stored]
      && db.staffRestaurants == (if isStaff then old(db.staffRestaurants) + [StaffRestaurant(userId, stored.id)]
                                 else old(db.staffRestaurants))
  {
    if !modelValid {
      return CreateInvalid;
    }
    var urls := SaveUploads(files);
    var stored := form.(imageUrl := Join(urls, ";"));
    if isStaff {
      stored := stored.(isApproved := false);
      stored := stored.(id := NextId(db.restaurants, RestaurantId));
      db.restaurants := db.restaurants + [stored];
      db.staffRestaurants := db.staffRestaurants + [StaffRestaurant(userId, stored.id)];
    } else {
      stored := stored.(isApproved := true);
      stored := stored.(id := NextId(db.restaurants, RestaurantId));
      db.restaurants := db.restaurants + [stored];
    }
    r := Created(stored.id);
  }

  /**
   * A staff member's new restaurant is theirs to manage at once but stays
   * off the public list, whatever the filters, until an admin approves it.
   */
  lemma StaffRestaurantAwaitsApproval(restaurants: seq<Restaurant>, links: seq<StaffRestaurant>, form: Restaurant,
                                      files: seq<Upload>, userId: string, reviews: seq<Review>,
                                      favorites: seq<FavoriteRestaurant>, meId: Option<string>, f: HomeController.Filters)
    ensures var stored := NewRestaurant(restaurants, form, files, true);
      && stored.id in RestaurantsOf(links + [StaffRestaurant(userId, stored.id)], userId)
      && stored !in HomeController.Index(restaurants + [stored], reviews, favorites, meId, f).restaurants
  {
    var stored := NewRestaurant(restaurants, form, files, true);
    assert StaffRestaurant(userId, stored.id) in links + [StaffRestaurant(userId, stored.id)];
  }

  datatype EditResult = EditNotFound | EditInvalid | EditSaved

  /** The picture URL of an edit: the new upload's when one is given, the stored one otherwise. */
  function EditedImage(current: string, image: Option<Upload>): string {
    if image.Some? && image.value.length > 0 then ImageFolder + image.value.storedName else current
  }

  /**
   * The restaurant after an edit: name, description, city, cuisine, address
   * and average price from the form; phone and opening hours as stored;
   * approval withdrawn when a staff member edits.
   */
  function Edited(existing: Restaurant, form: Restaurant, image: Option<Upload>, isStaff: bool): (r: Restaurant)
    ensures r.id == existing.id && r.phone == existing.phone && r.openHours == existing.openHours
    ensures r.name == form.name && r.description == form.description && r.city == form.city
    ensures r.cuisineType == form.cuisineType && r.address == form.address && r.averagePrice == form.averagePrice
    ensures r.imageUrl == EditedImage(existing.imageUrl, image)
    ensures r.isApproved <==> !isStaff
  {
    existing.(imageUrl := EditedImage(existing.imageUrl, image),
              name := form.name, description := form.description, city := form.city,
              cuisineType := form.cuisineType, address := form.address, averagePrice := form.averagePrice,
              isApproved := !isStaff)
  }

  /**
   * `Edit(id, restaurant, ImageFile)` (POST): an id that differs from the
   * form's or matches no restaurant is NotFound; an invalid form changes
   * nothing; otherwise the stored restaurant is replaced by its edit.
   */
  method Edit(db: AppDbContext, id: int, form: Restaurant, image: Option<Upload>, modelValid: bool, isStaff: bool)
    returns (r: EditResult)
    modifies db`restaurants
    ensures r.EditNotFound? <==> id != form.id || FindRestaurant(old(db.restaurants), id).None?
    ensures r.EditInvalid? <==> !r.EditNotFound? && !modelValid
    ensures r.EditSaved? ==>
      var k := FindRestaurant(old(db.restaurants), id).value;
      db.restaurants == old(db.restaurants)[k := Edited(old(db.restaurants)[k], form, image, isStaff)]
    ensures !r.EditSaved? ==> db.restaurants == old(db.restaurants)
  {
    if id != form.id {
      return EditNotFound;
    }
    var found := FindRestaurant(db.restaurants, id);
    if found.None? {
      return EditNotFound;
    }
    if !modelValid {
      return EditInvalid;
    }
    var k := found.value;
    var existing := db.restaurants[k];
    if image.Some? && image.value.length > 0 {
      existing := existing.(imageUrl := ImageFolder + image.value.storedName);
    }
    existing := existing.(name := form.name, description := form.description, city := form.city,
                          cuisineType := form.cuisineType, address := form.address, averagePrice := form.averagePrice);
    existing := existing.(isApproved := !isStaff);
    db.restaurants := db.restaurants[k := existing];
    r := EditSaved;
  }

  /**
   * After a staff member's edit the restaurant leaves the public list until
   * it is approved again, and every other restaurant is listed as before.
   */
  lemma StaffEditWithdrawsListing(restaurants: seq<Restaurant>, k: nat, form: Restaurant, image: Option<Upload>,
                                  reviews: seq<Review>, favorites: seq<FavoriteRestaurant>, meId: Option<string>,
                                  f: HomeController.Filters)
    requires k < |restaurants|
    ensures var edited := Edited(restaurants[k], form, image, true);
      var after := restaurants[k := edited];
      && edited !in HomeController.Index(after, reviews, favorites, meId, f).restaurants
      && forall x :: x in restaurants && x != restaurants[k] && x != edited ==>
           (x in HomeController.Index(after, reviews, favorites, meId, f).restaurants
            <==> x in HomeController.Index(restaurants, reviews, favorites, meId, f).restaurants)
  {
    var edited := Edited(restaurants[k], form, image, true);
    var after := restaurants[k := edited];
    forall x | x in restaurants && x != restaurants[k] && x != edited ensures x in after {
      var j :| 0 <= j < |restaurants| && restaurants[j] == x;
      assert after[j] == x;
    }
  }
}
