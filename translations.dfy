/**
 * The storefront's fixed interface-text dictionaries, one per language code:
 * English (1) and Arabic (2). Each is kept as the list of its entries in
 * source order, in the sections the source groups them into. No key occurs
 * twice (`DictionariesHaveDistinctKeys`), so the object literal's "last entry
 * wins" rule never applies and a lookup may take the first entry with the key
 * (`LookupDistinct`).
 */
module Translations {

  import opened Wrappers

  type Dictionary = seq<(string, string)>

  predicate HasKey(d: Dictionary, key: string) {
    exists i :: 0 <= i < |d| && d[i].0 == key
  }

  /** `d[key]`: the text stored under key, if there is one. */
  function Lookup(d: Dictionary, key: string): (r: Option<string>)
    ensures r.Some? <==> HasKey(d, key)
    ensures r.Some? ==> (key, r.value) in d
  {
    if d == [] then None
    else if d[0].0 == key then Some(d[0].1)
    else
      var r := Lookup(d[1..], key);
      assert HasKey(d, key) ==> HasKey(d[1..], key) by {
        if HasKey(d, key) {
          var i :| 0 <= i < |d| && d[i].0 == key;
          assert d[1..][i - 1].0 == key;
        }
      }
      assert HasKey(d[1..], key) ==> HasKey(d, key) by {
        if HasKey(d[1..], key) {
          var i :| 0 <= i < |d[1..]| && d[1..][i].0 == key;
          assert d[i + 1].0 == key;
        }
      }
      r
  }

  /** Two dictionaries list the same keys in the same order. */
  predicate SameKeys(d: Dictionary, e: Dictionary) {
    |d| == |e| && forall i :: 0 <= i < |d| ==> d[i].0 == e[i].0
  }

  /** Keys agree section by section, so they agree on the whole. */
  lemma SameKeysAppend(d: Dictionary, e: Dictionary, d': Dictionary, e': Dictionary)
    requires SameKeys(d, e) && SameKeys(d', e')
    ensures SameKeys(d + d', e + e')
  {
  }

  /** Every entry has a non-empty text. */
  predicate NoEmptyText(d: Dictionary) {
    forall i :: 0 <= i < |d| ==> d[i].1 != ""
  }

  /** Dictionaries with the same keys define a text for the same keys. */
  lemma SameKeysSameLookups(d: Dictionary, e: Dictionary, key: string)
    requires SameKeys(d, e)
    ensures Lookup(d, key).Some? <==> Lookup(e, key).Some?
  {
    if HasKey(d, key) {
      var i :| 0 <= i < |d| && d[i].0 == key;
      assert e[i].0 == key;
    }
    if HasKey(e, key) {
      var i :| 0 <= i < |e| && e[i].0 == key;
      assert d[i].0 == key;
    }
  }

  /**
   * In a dictionary without empty texts, every key it defines resolves to a
   * non-empty text, so `t` never falls back for it.
   */
  lemma KnownKeyResolves(d: Dictionary, key: string)
    requires NoEmptyText(d)
    requires HasKey(d, key)
    ensures Lookup(d, key).Some? && Lookup(d, key).value != ""
  {
    var i :| 0 <= i < |d| && d[i] == (key, Lookup(d, key).value);
  }

  /** Language code 1: the dictionary at lines 27-107. */
  const English: Dictionary :=
    EnglishNavigation + EnglishCart + EnglishCheckout + EnglishProducts +
    EnglishCategories + EnglishNotifications + EnglishFormPlaceholders + EnglishErrors + EnglishLanguageSelection + EnglishFooter

  /** Language code 2: the dictionary at lines 108-188. */
  const Arabic: Dictionary :=
    ArabicNavigation + ArabicCart + ArabicCheckout + ArabicProducts +
    ArabicCategories + ArabicNotifications + ArabicFormPlaceholders + ArabicErrors + ArabicLanguageSelection + ArabicFooter

  /** Navigation, lines 29-33. */
  const EnglishNavigation: Dictionary := [
    ("nav.home", "Home"),
    ("nav.cart", "Cart"),
    ("nav.back", "Back"),
    ("nav.back_to_products", "Back to Products"),
    ("nav.back_to_cart", "Back to Cart")
  ]

  /** Cart, lines 36-50. */
  const EnglishCart: Dictionary := [
    ("cart.title", "Shopping Cart"),
    ("cart.empty", "Your cart is empty"),
    ("cart.items_count", "item in your cart"),
    ("cart.items_count_plural", "items in your cart"),
    ("cart.clear_cart", "Clear Cart"),
    ("cart.continue_shopping", "Continue Shopping"),
    ("cart.proceed_to_checkout", "Proceed to Checkout"),
    ("cart.order_summary", "Order Summary"),
    ("cart.subtotal", "Subtotal"),
    ("cart.shipping", "Shipping"),
    ("cart.tax", "Tax"),
    ("cart.total", "Total"),
    ("cart.free", "Free"),
    ("cart.quantity", "Quantity"),
    ("cart.remove", "Remove")
  ]

  /** Checkout, lines 53-64. */
  const EnglishCheckout: Dictionary := [
    ("checkout.title", "Checkout"),
    ("checkout.subtitle", "Complete your order"),
    ("checkout.customer_info", "Customer Information"),
    ("checkout.full_name", "Full Name"),
    ("checkout.phone_number", "Phone Number"),
    ("checkout.address", "Address"),
    ("checkout.place_order", "Place Order"),
    ("checkout.placing_order", "Placing Order..."),
    ("checkout.order_summary", "Order Summary"),
    ("checkout.free_shipping", "Free Shipping"),
    ("checkout.cash_on_delivery", "Cash on Delivery"),
    ("checkout.business_days_delivery", "Business Days Delivery")
  ]

  /** Products, lines 67-72. */
  const EnglishProducts: Dictionary := [
    ("products.title", "Products"),
    ("products.subtitle", "Browse our products in this category"),
    ("products.add_to_cart", "Add to Cart"),
    ("products.out_of_stock", "Out of Stock"),
    ("products.no_products", "No Products Available"),
    ("products.no_products_message", "We're currently setting up products for this category. Please check back soon!")
  ]

  /** Categories, lines 75-79. */
  const EnglishCategories: Dictionary := [
    ("categories.title", "Categories"),
    ("categories.subtitle", "Browse our product categories"),
    ("categories.explore", "Explore"),
    ("categories.no_categories", "No Categories Available"),
    ("categories.no_categories_message", "We're currently setting up categories. Please check back soon!")
  ]

  /** Notifications, lines 82-83. */
  const EnglishNotifications: Dictionary := [
    ("notification.added_to_cart", "added to cart!"),
    ("notification.max_stock", "is already at maximum stock in your cart!")
  ]

  /** Form placeholders, lines 86-88. */
  const EnglishFormPlaceholders: Dictionary := [
    ("placeholder.full_name", "Enter your full name"),
    ("placeholder.phone", "Enter your phone number"),
    ("placeholder.address", "Enter your complete address")
  ]

  /** Errors, lines 91-93. */
  const EnglishErrors: Dictionary := [
    ("error.general", "An error occurred"),
    ("error.network", "Network error. Please check your connection."),
    ("error.loading", "Failed to load data")
  ]

  /** Language selection, lines 96-102. */
  const EnglishLanguageSelection: Dictionary := [
    ("language.select", "Select Language"),
    ("language.english", "English"),
    ("language.arabic", "العربية"),
    ("language.continue", "Continue"),
    ("language.toggle", "Language"),
    ("language.en", "EN"),
    ("language.ar", "ع")
  ]

  /** Footer, lines 105-106. */
  const EnglishFooter: Dictionary := [
    ("footer.copyright", "All rights reserved."),
    ("footer.powered_by", "Powered by")
  ]

  /** Navigation, lines 110-114. */
  const ArabicNavigation: Dictionary := [
    ("nav.home", "الرئيسية"),
    ("nav.cart", "السلة"),
    ("nav.back", "رجوع"),
    ("nav.back_to_products", "العودة للمنتجات"),
    ("nav.back_to_cart", "العودة للسلة")
  ]

  /** Cart, lines 117-131. */
  const ArabicCart: Dictionary := [
    ("cart.title", "سلة التسوق"),
    ("cart.empty", "سلة التسوق فارغة"),
    ("cart.items_count", "منتج في السلة"),
    ("cart.items_count_plural", "منتجات في السلة"),
    ("cart.clear_cart", "إفراغ السلة"),
    ("cart.continue_shopping", "مواصلة التسوق"),
    ("cart.proceed_to_checkout", "إتمام الطلب"),
    ("cart.order_summary", "ملخص الطلب"),
    ("cart.subtotal", "المجموع الفرعي"),
    ("cart.shipping", "الشحن"),
    ("cart.tax", "الضريبة"),
    ("cart.total", "المجموع الكلي"),
    ("cart.free", "مجاني"),
    ("cart.quantity", "الكمية"),
    ("cart.remove", "إزالة")
  ]

  /** Checkout, lines 134-145. */
  const ArabicCheckout: Dictionary := [
    ("checkout.title", "إتمام الطلب"),
    ("checkout.subtitle", "أكمل طلبك"),
    ("checkout.customer_info", "معلومات العميل"),
    ("checkout.full_name", "الاسم الكامل"),
    ("checkout.phone_number", "رقم الهاتف"),
    ("checkout.address", "العنوان"),
    ("checkout.place_order", "إتمام الطلب"),
    ("checkout.placing_order", "جاري إتمام الطلب..."),
    ("checkout.order_summary", "ملخص الطلب"),
    ("checkout.free_shipping", "شحن مجاني"),
    ("checkout.cash_on_delivery", "الدفع عند الاستلام"),
    ("checkout.business_days_delivery", "أيام عمل للتوصيل")
  ]

  /** Products, lines 148-153. */
  const ArabicProducts: Dictionary := [
    ("products.title", "المنتجات"),
    ("products.subtitle", "تصفح منتجاتنا في هذه الفئة"),
    ("products.add_to_cart", "أضف للسلة"),
    ("products.out_of_stock", "نفذت الكمية"),
    ("products.no_products", "لا توجد منتجات متاحة"),
    ("products.no_products_message", "نحن نقوم حالياً بإعداد المنتجات لهذه الفئة. يرجى العودة قريباً!")
  ]

  /** Categories, lines 156-160. */
  const ArabicCategories: Dictionary := [
    ("categories.title", "الفئات"),
    ("categories.subtitle", "تصفح فئات منتجاتنا"),
    ("categories.explore", "استكشف"),
    ("categories.no_categories", "لا توجد فئات متاحة"),
    ("categories.no_categories_message", "نحن نقوم حالياً بإعداد الفئات. يرجى العودة قريباً!")
  ]

  /** Notifications, lines 163-164. */
  const ArabicNotifications: Dictionary := [
    ("notification.added_to_cart", "تمت الإضافة للسلة!"),
    ("notification.max_stock", "وصل للحد الأقصى في السلة!")
  ]

  /** Form placeholders, lines 167-169. */
  const ArabicFormPlaceholders: Dictionary := [
    ("placeholder.full_name", "أدخل اسمك الكامل"),
    ("placeholder.phone", "أدخل رقم هاتفك"),
    ("placeholder.address", "أدخل عنوانك الكامل")
  ]

  /** Errors, lines 172-174. */
  const ArabicErrors: Dictionary := [
    ("error.general", "حدث خطأ"),
    ("error.network", "خطأ في الشبكة. يرجى التحقق من الاتصال."),
    ("error.loading", "فشل في تحميل البيانات")
  ]

  /** Language selection, lines 177-183. */
  const ArabicLanguageSelection: Dictionary := [
    ("language.select", "اختر اللغة"),
    ("language.english", "English"),
    ("language.arabic", "العربية"),
    ("language.continue", "متابعة"),
    ("language.toggle", "اللغة"),
    ("language.en", "EN"),
    ("language.ar", "ع")
  ]

  /** Footer, lines 186-187. */
  const ArabicFooter: Dictionary := [
    ("footer.copyright", "جميع الحقوق محفوظة."),
    ("footer.powered_by", "مدعوم بواسطة")
  ]

  /** English and Arabic define the same keys, in the same order. */
  lemma EnglishArabicSameKeys()
    ensures SameKeys(English, Arabic)
  {
    var e, a := EnglishNavigation, ArabicNavigation;
    assert SameKeys(e, a);
    assert SameKeys(EnglishCart, ArabicCart);
    SameKeysAppend(e, a, EnglishCart, ArabicCart);
    e, a := e + EnglishCart, a + ArabicCart;
    assert SameKeys(EnglishCheckout, ArabicCheckout);
    SameKeysAppend(e, a, EnglishCheckout, ArabicCheckout);
    e, a := e + EnglishCheckout, a + ArabicCheckout;
    assert SameKeys(EnglishProducts, ArabicProducts);
    SameKeysAppend(e, a, EnglishProducts, ArabicProducts);
    e, a := e + EnglishProducts, a + ArabicProducts;
    assert SameKeys(EnglishCategories, ArabicCategories);
    SameKeysAppend(e, a, EnglishCategories, ArabicCategories);
    e, a := e + EnglishCategories, a + ArabicCategories;
    assert SameKeys(EnglishNotifications, ArabicNotifications);
    SameKeysAppend(e, a, EnglishNotifications, ArabicNotifications);
    e, a := e + EnglishNotifications, a + ArabicNotifications;
    assert SameKeys(EnglishFormPlaceholders, ArabicFormPlaceholders);
    SameKeysAppend(e, a, EnglishFormPlaceholders, ArabicFormPlaceholders);
    e, a := e + EnglishFormPlaceholders, a + ArabicFormPlaceholders;
    assert SameKeys(EnglishErrors, ArabicErrors);
    SameKeysAppend(e, a, EnglishErrors, ArabicErrors);
    e, a := e + EnglishErrors, a + ArabicErrors;
    assert SameKeys(EnglishLanguageSelection, ArabicLanguageSelection);
    SameKeysAppend(e, a, EnglishLanguageSelection, ArabicLanguageSelection);
    e, a := e + EnglishLanguageSelection, a + ArabicLanguageSelection;
    assert SameKeys(EnglishFooter, ArabicFooter);
    SameKeysAppend(e, a, EnglishFooter, ArabicFooter);
    e, a := e + EnglishFooter, a + ArabicFooter;
    assert e == English && a == Arabic;
  }

  /** No text of either dictionary is empty. */
  lemma DictionariesHaveNoEmptyText()
    ensures NoEmptyText(English) && NoEmptyText(Arabic)
  {
    assert NoEmptyText(EnglishNavigation) && NoEmptyText(ArabicNavigation);
    assert NoEmptyText(EnglishCart) && NoEmptyText(ArabicCart);
    assert NoEmptyText(EnglishCheckout) && NoEmptyText(ArabicCheckout);
    assert NoEmptyText(EnglishProducts) && NoEmptyText(ArabicProducts);
    assert NoEmptyText(EnglishCategories) && NoEmptyText(ArabicCategories);
    assert NoEmptyText(EnglishNotifications) && NoEmptyText(ArabicNotifications);
    assert NoEmptyText(EnglishFormPlaceholders) && NoEmptyText(ArabicFormPlaceholders);
    assert NoEmptyText(EnglishErrors) && NoEmptyText(ArabicErrors);
    assert NoEmptyText(EnglishLanguageSelection) && NoEmptyText(ArabicLanguageSelection);
    assert NoEmptyText(EnglishFooter) && NoEmptyText(ArabicFooter);
  }

  /** No key occurs twice. */
  predicate DistinctKeys(d: Dictionary) {
    forall i, j :: 0 <= i < j < |d| ==> d[i].0 != d[j].0
  }

  /** No key of `d` is a key of `e`. */
  predicate DisjointKeys(d: Dictionary, e: Dictionary) {
    forall i, j :: 0 <= i < |d| && 0 <= j < |e| ==> d[i].0 != e[j].0
  }

  /** Every key starts with `prefix`. */
  predicate KeysUnder(d: Dictionary, prefix: string) {
    forall i :: 0 <= i < |d| ==> prefix <= d[i].0
  }

  lemma DistinctKeysAppend(d: Dictionary, e: Dictionary)
    requires DistinctKeys(d) && DistinctKeys(e) && DisjointKeys(d, e)
    ensures DistinctKeys(d + e)
  {
    forall i, j | 0 <= i < j < |d + e| ensures (d + e)[i].0 != (d + e)[j].0 {
      if j < |d| {
        assert (d + e)[i] == d[i] && (d + e)[j] == d[j];
      } else if i < |d| {
        assert (d + e)[i] == d[i] && (d + e)[j] == e[j - |d|];
      } else {
        assert (d + e)[i] == e[i - |d|] && (d + e)[j] == e[j - |d|];
      }
    }
  }

  lemma DisjointKeysAppend(d: Dictionary, d': Dictionary, e: Dictionary)
    requires DisjointKeys(d, e) && DisjointKeys(d', e)
    ensures DisjointKeys(d + d', e)
  {
    forall i, j | 0 <= i < |d + d'| && 0 <= j < |e| ensures (d + d')[i].0 != e[j].0 {
      if i < |d| {
        assert (d + d')[i] == d[i];
      } else {
        assert (d + d')[i] == d'[i - |d|];
      }
    }
  }

  /** Two prefixes of one key are prefixes of one another. */
  lemma PrefixesOfOneKey(p: string, q: string, key: string)
    requires p <= key && q <= key
    ensures p <= q || q <= p
  {
    if |p| <= |q| {
      assert p == key[..|p|] && q[..|p|] == key[..|p|];
    } else {
      assert q == key[..|q|] && p[..|q|] == key[..|q|];
    }
  }

  /** Sections under prefixes that differ at position `k` share no key. */
  lemma DisjointSections(d: Dictionary, p: string, e: Dictionary, q: string, k: nat)
    requires KeysUnder(d, p) && KeysUnder(e, q)
    requires k < |p| && k < |q| && p[k] != q[k]
    ensures DisjointKeys(d, e)
  {
    forall i, j | 0 <= i < |d| && 0 <= j < |e| ensures d[i].0 != e[j].0 {
      if d[i].0 == e[j].0 {
        PrefixesOfOneKey(p, q, d[i].0);
      }
    }
  }

  // Within each English section the keys start with the section's name and do not repeat.

  lemma NavigationKeysWellFormed()
    ensures KeysUnder(EnglishNavigation, "nav.") && DistinctKeys(EnglishNavigation)
  {
  }

  lemma CartKeysWellFormed()
    ensures KeysUnder(EnglishCart, "cart.") && DistinctKeys(EnglishCart)
  {
  }

  lemma CheckoutKeysWellFormed()
    ensures KeysUnder(EnglishCheckout, "checkout.") && DistinctKeys(EnglishCheckout)
  {
  }

  lemma ProductsKeysWellFormed()
    ensures KeysUnder(EnglishProducts, "products.") && DistinctKeys(EnglishProducts)
  {
  }

  lemma CategoriesKeysWellFormed()
    ensures KeysUnder(EnglishCategories, "categories.") && DistinctKeys(EnglishCategories)
  {
  }

  lemma NotificationsKeysWellFormed()
    ensures KeysUnder(EnglishNotifications, "notification.") && DistinctKeys(EnglishNotifications)
  {
  }

  lemma FormPlaceholdersKeysWellFormed()
    ensures KeysUnder(EnglishFormPlaceholders, "placeholder.") && DistinctKeys(EnglishFormPlaceholders)
  {
  }

  lemma ErrorsKeysWellFormed()
    ensures KeysUnder(EnglishErrors, "error.") && DistinctKeys(EnglishErrors)
  {
  }

  lemma LanguageSelectionKeysWellFormed()
    ensures KeysUnder(EnglishLanguageSelection, "language.") && DistinctKeys(EnglishLanguageSelection)
  {
  }

  lemma FooterKeysWellFormed()
    ensures KeysUnder(EnglishFooter, "footer.") && DistinctKeys(EnglishFooter)
  {
  }

  /**
   * No key occurs twice in either dictionary, so the object literal's
   * last-entry-wins rule and `Lookup`'s first-entry rule pick the same text.
   */
  lemma {:induction false} DictionariesHaveDistinctKeys()
    ensures DistinctKeys(English) && DistinctKeys(Arabic)
  {
    NavigationKeysWellFormed();
    CartKeysWellFormed();
    CheckoutKeysWellFormed();
    ProductsKeysWellFormed();
    CategoriesKeysWellFormed();
    NotificationsKeysWellFormed();
    FormPlaceholdersKeysWellFormed();
    ErrorsKeysWellFormed();
    LanguageSelectionKeysWellFormed();
    FooterKeysWellFormed();
    var e := EnglishNavigation;
    DisjointSections(EnglishNavigation, "nav.", EnglishCart, "cart.", 0);
    DistinctKeysAppend(e, EnglishCart);
    e := e + EnglishCart;
    DisjointSections(EnglishNavigation, "nav.", EnglishCheckout, "checkout.", 0);
    DisjointSections(EnglishCart, "cart.", EnglishCheckout, "checkout.", 1);
    DisjointKeysAppend(EnglishNavigation, EnglishCart, EnglishCheckout);
    DistinctKeysAppend(e, EnglishCheckout);
    e := e + EnglishCheckout;
    DisjointSections(EnglishNavigation, "nav.", EnglishProducts, "products.", 0);
    DisjointSections(EnglishCart, "cart.", EnglishProducts, "products.", 0);
    DisjointKeysAppend(EnglishNavigation, EnglishCart, EnglishProducts);
    DisjointSections(EnglishCheckout, "checkout.", EnglishProducts, "products.", 0);
    DisjointKeysAppend(EnglishNavigation + EnglishCart, EnglishCheckout, EnglishProducts);
    DistinctKeysAppend(e, EnglishProducts);
    e := e + EnglishProducts;
    DisjointSections(EnglishNavigation, "nav.", EnglishCategories, "categories.", 0);
    DisjointSections(EnglishCart, "cart.", EnglishCategories, "categories.", 2);
    DisjointKeysAppend(EnglishNavigation, EnglishCart, EnglishCategories);
    DisjointSections(EnglishCheckout, "checkout.", EnglishCategories, "categories.", 1);
    DisjointKeysAppend(EnglishNavigation + EnglishCart, EnglishCheckout, EnglishCategories);
    DisjointSections(EnglishProducts, "products.", EnglishCategories, "categories.", 0);
    DisjointKeysAppend(EnglishNavigation + EnglishCart + EnglishCheckout, EnglishProducts, EnglishCategories);
    DistinctKeysAppend(e, EnglishCategories);
    e := e + EnglishCategories;
    DisjointSections(EnglishNavigation, "nav.", EnglishNotifications, "notification.", 1);
    DisjointSections(EnglishCart, "cart.", EnglishNotifications, "notification.", 0);
    DisjointKeysAppend(EnglishNavigation, EnglishCart, EnglishNotifications);
    DisjointSections(EnglishCheckout, "checkout.", EnglishNotifications, "notification.", 0);
    DisjointKeysAppend(EnglishNavigation + EnglishCart, EnglishCheckout, EnglishNotifications);
    DisjointSections(EnglishProducts, "products.", EnglishNotifications, "notification.", 0);
    DisjointKeysAppend(EnglishNavigation + EnglishCart + EnglishCheckout, EnglishProducts, EnglishNotifications);
    DisjointSections(EnglishCategories, "categories.", EnglishNotifications, "notification.", 0);
    DisjointKeysAppend(EnglishNavigation + EnglishCart + EnglishCheckout + EnglishProducts, EnglishCategories, EnglishNotifications);
    DistinctKeysAppend(e, EnglishNotifications);
    e := e + EnglishNotifications;
    DisjointSections(EnglishNavigation, "nav.", EnglishFormPlaceholders, "placeholder.", 0);
    DisjointSections(EnglishCart, "cart.", EnglishFormPlaceholders, "placeholder.", 0);
    DisjointKeysAppend(EnglishNavigation, EnglishCart, EnglishFormPlaceholders);
    DisjointSections(EnglishCheckout, "checkout.", EnglishFormPlaceholders, "placeholder.", 0);
    DisjointKeysAppend(EnglishNavigation + EnglishCart, EnglishCheckout, EnglishFormPlaceholders);
    DisjointSections(EnglishProducts, "products.", EnglishFormPlaceholders, "placeholder.", 1);
    DisjointKeysAppend(EnglishNavigation + EnglishCart + EnglishCheckout, EnglishProducts, EnglishFormPlaceholders);
    DisjointSections(EnglishCategories, "categories.", EnglishFormPlaceholders, "placeholder.", 0);
    DisjointKeysAppend(EnglishNavigation + EnglishCart + EnglishCheckout + EnglishProducts, EnglishCategories, EnglishFormPlaceholders);
    DisjointSections(EnglishNotifications, "notification.", EnglishFormPlaceholders, "placeholder.", 0);
    DisjointKeysAppend(EnglishNavigation + EnglishCart + EnglishCheckout + EnglishProducts + EnglishCategories, EnglishNotifications, EnglishFormPlaceholders);
    DistinctKeysAppend(e, EnglishFormPlaceholders);
    e := e + EnglishFormPlaceholders;
    DisjointSections(EnglishNavigation, "nav.", EnglishErrors, "error.", 0);
    DisjointSections(EnglishCart, "cart.", EnglishErrors, "error.", 0);
    DisjointKeysAppend(EnglishNavigation, EnglishCart, EnglishErrors);
    DisjointSections(EnglishCheckout, "checkout.", EnglishErrors, "error.", 0);
    DisjointKeysAppend(EnglishNavigation + EnglishCart, EnglishCheckout, EnglishErrors);
    DisjointSections(EnglishProducts, "products.", EnglishErrors, "error.", 0);
    DisjointKeysAppend(EnglishNavigation + EnglishCart + EnglishCheckout, EnglishProducts, EnglishErrors);
    DisjointSections(EnglishCategories, "categories.", EnglishErrors, "error.", 0);
    DisjointKeysAppend(EnglishNavigation + EnglishCart + EnglishCheckout + EnglishProducts, EnglishCategories, EnglishErrors);
    DisjointSections(EnglishNotifications, "notification.", EnglishErrors, "error.", 0);
    DisjointKeysAppend(EnglishNavigation + EnglishCart + EnglishCheckout + EnglishProducts + EnglishCategories, EnglishNotifications, EnglishErrors);
    DisjointSections(EnglishFormPlaceholders, "placeholder.", EnglishErrors, "error.", 0);
    DisjointKeysAppend(EnglishNavigation + EnglishCart + EnglishCheckout + EnglishProducts + EnglishCategories + EnglishNotifications, EnglishFormPlaceholders, EnglishErrors);
    DistinctKeysAppend(e, EnglishErrors);
    e := e + EnglishErrors;
    DisjointSections(EnglishNavigation, "nav.", EnglishLanguageSelection, "language.", 0);
    DisjointSections(EnglishCart, "cart.", EnglishLanguageSelection, "language.", 0);
    DisjointKeysAppend(EnglishNavigation, EnglishCart, EnglishLanguageSelection);
    DisjointSections(EnglishCheckout, "checkout.", EnglishLanguageSelection, "language.", 0);
    DisjointKeysAppend(EnglishNavigation + EnglishCart, EnglishCheckout, EnglishLanguageSelection);
    DisjointSections(EnglishProducts, "products.", EnglishLanguageSelection, "language.", 0);
    DisjointKeysAppend(EnglishNavigation + EnglishCart + EnglishCheckout, EnglishProducts, EnglishLanguageSelection);
    DisjointSections(EnglishCategories, "categories.", EnglishLanguageSelection, "language.", 0);
    DisjointKeysAppend(EnglishNavigation + EnglishCart + EnglishCheckout + EnglishProducts, EnglishCategories, EnglishLanguageSelection);
    DisjointSections(EnglishNotifications, "notification.", EnglishLanguageSelection, "language.", 0);
    DisjointKeysAppend(EnglishNavigation + EnglishCart + EnglishCheckout + EnglishProducts + EnglishCategories, EnglishNotifications, EnglishLanguageSelection);
    DisjointSections(EnglishFormPlaceholders, "placeholder.", EnglishLanguageSelection, "language.", 0);
    DisjointKeysAppend(EnglishNavigation + EnglishCart + EnglishCheckout + EnglishProducts + EnglishCategories + EnglishNotifications, EnglishFormPlaceholders, EnglishLanguageSelection);
    DisjointSections(EnglishErrors, "error.", EnglishLanguageSelection, "language.", 0);
    DisjointKeysAppend(EnglishNavigation + EnglishCart + EnglishCheckout + EnglishProducts + EnglishCategories + EnglishNotifications + EnglishFormPlaceholders, EnglishErrors, EnglishLanguageSelection);
    DistinctKeysAppend(e, EnglishLanguageSelection);
    e := e + EnglishLanguageSelection;
    DisjointSections(EnglishNavigation, "nav.", EnglishFooter, "footer.", 0);
    DisjointSections(EnglishCart, "cart.", EnglishFooter, "footer.", 0);
    DisjointKeysAppend(EnglishNavigation, EnglishCart, EnglishFooter);
    DisjointSections(EnglishCheckout, "checkout.", EnglishFooter, "footer.", 0);
    DisjointKeysAppend(EnglishNavigation + EnglishCart, EnglishCheckout, EnglishFooter);
    DisjointSections(EnglishProducts, "products.", EnglishFooter, "footer.", 0);
    DisjointKeysAppend(EnglishNavigation + EnglishCart + EnglishCheckout, EnglishProducts, EnglishFooter);
    DisjointSections(EnglishCategories, "categories.", EnglishFooter, "footer.", 0);
    DisjointKeysAppend(EnglishNavigation + EnglishCart + EnglishCheckout + EnglishProducts, EnglishCategories, EnglishFooter);
    DisjointSections(EnglishNotifications, "notification.", EnglishFooter, "footer.", 0);
    DisjointKeysAppend(EnglishNavigation + EnglishCart + EnglishCheckout + EnglishProducts + EnglishCategories, EnglishNotifications, EnglishFooter);
    DisjointSections(EnglishFormPlaceholders, "placeholder.", EnglishFooter, "footer.", 0);
    DisjointKeysAppend(EnglishNavigation + EnglishCart + EnglishCheckout + EnglishProducts + EnglishCategories + EnglishNotifications, EnglishFormPlaceholders, EnglishFooter);
    DisjointSections(EnglishErrors, "error.", EnglishFooter, "footer.", 0);
    DisjointKeysAppend(EnglishNavigation + EnglishCart + EnglishCheckout + EnglishProducts + EnglishCategories + EnglishNotifications + EnglishFormPlaceholders, EnglishErrors, EnglishFooter);
    DisjointSections(EnglishLanguageSelection, "language.", EnglishFooter, "footer.", 0);
    DisjointKeysAppend(EnglishNavigation + EnglishCart + EnglishCheckout + EnglishProducts + EnglishCategories + EnglishNotifications + EnglishFormPlaceholders + EnglishErrors, EnglishLanguageSelection, EnglishFooter);
    DistinctKeysAppend(e, EnglishFooter);
    e := e + EnglishFooter;
    assert e == English;
    EnglishArabicSameKeys();
  }

  /** With distinct keys, a key's text is the one entry it has, whichever occurrence a lookup takes. */
  lemma {:induction false} LookupDistinct(d: Dictionary, i: nat)
    requires DistinctKeys(d) && i < |d|
    ensures Lookup(d, d[i].0) == Some(d[i].1)
  {
    if i > 0 {
      assert d[0].0 != d[i].0;
      assert d[1..][i - 1] == d[i];
      LookupDistinct(d[1..], i - 1);
    }
  }
}
