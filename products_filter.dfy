/**
 * The catalogue's filter panel: a category radio group, the subcategories of the chosen
 * category, two price sliders and an on-sale checkbox. Every change hands the whole
 * filter state to the catalogue, which passes it on to the product list.
 */
module ProductsFilter {
  import opened Common
  import ListProducts

  /** `categoriesWithSubcategories`: four categories have subcategory options. */
  function SubcategoriesFor(category: string): (options: Option<seq<string>>)
    ensures options.Some? <==> category in {"Zapatillas", "Ropa", "Accesorios", "Tecnologia"}
    ensures options.Some? ==> |options.value| == 3
  {
    if category == "Zapatillas" then Some(["Running", "Casual", "Deportivo"])
    else if category == "Ropa" then Some(["Camisetas", "Pantalones", "Chaquetas"])
    else if category == "Accesorios" then Some(["Relojes", "Gafas de Sol", "Bolsos"])
    else if category == "Tecnologia" then Some(["Celulares", "Computadoras", "Electrodomésticos"])
    else None
  }

  const InitialRange := ListProducts.PriceRange(0, 10000000)

  class FilterPanel {
    var selectedCategory: string
    var selectedSubcategory: string
    var priceRange: ListProducts.PriceRange
    var onSale: bool
    /** The catalogue's list, whose `filters` every `onFilterChange` call replaces. */
    const list: ListProducts.ProductList

    /** The panel's state as one `filters` object. */
    function Current(): (f: ListProducts.Filters)
      reads this
      ensures f.category == selectedCategory && f.subcategory == selectedSubcategory
      ensures f.priceRange == priceRange && f.onSale == onSale
    {
      ListProducts.Filters(selectedCategory, selectedSubcategory, priceRange, onSale)
    }

    constructor (list: ListProducts.ProductList)
      ensures this.list == list
      ensures selectedCategory == "" && selectedSubcategory == "" && priceRange == InitialRange && !onSale
    {
      this.list := list;
      selectedCategory := "";
      selectedSubcategory := "";
      priceRange := InitialRange;
      onSale := false;
    }

    /** The mount effect hands the initial state to the catalogue once. */
    method Mount()
      modifies list`filters
      ensures list.filters == Current()
      ensures list.products == old(list.products) && list.searchTerm == old(list.searchTerm)
      ensures list.loading == old(list.loading) && list.error == old(list.error)
    {
      list.SetFilters(Current());
    }

    /** The subcategory group shows only for a chosen category with options. */
    function SubcategoryMenu(): (options: Option<seq<string>>)
      reads this
      ensures options.Some? ==> selectedCategory != "" && |options.value| == 3
    {
      if selectedCategory != "" then SubcategoriesFor(selectedCategory) else None
    }

    /** `handleCategoryChange`: a new category drops the chosen subcategory. */
    method HandleCategoryChange(category: string)
      modifies this, list`filters
      ensures selectedCategory == category && selectedSubcategory == ""
      ensures priceRange == old(priceRange) && onSale == old(onSale)
      ensures list.filters == ListProducts.Filters(category, "", old(priceRange), old(onSale))
      ensures list.searchTerm == old(list.searchTerm) && list.products == old(list.products)
      ensures list.loading == old(list.loading) && list.error == old(list.error)
      ensures list.filters == Current()
    {
      selectedCategory := category;
      selectedSubcategory := "";
      list.SetFilters(ListProducts.Filters(category, "", priceRange, onSale));
    }

    /** `handleSubcategoryChange` */
    method HandleSubcategoryChange(subcategory: string)
      modifies this, list`filters
      ensures selectedSubcategory == subcategory && selectedCategory == old(selectedCategory)
      ensures priceRange == old(priceRange) && onSale == old(onSale)
      ensures list.filters == old(Current()).(subcategory := subcategory)
      ensures list.searchTerm == old(list.searchTerm) && list.products == old(list.products)
      ensures list.loading == old(list.loading) && list.error == old(list.error)
      ensures list.filters == Current()
    {
      selectedSubcategory := subcategory;
      list.SetFilters(ListProducts.Filters(selectedCategory, subcategory, priceRange, onSale));
    }

    /** `handlePriceChange`: slider 0 moves the minimum, slider 1 the maximum. */
    method HandlePriceChange(index: int, value: int)
      requires index == 0 || index == 1
      modifies this, list`filters
      ensures priceRange == old(priceRange).With(index, value)
      ensures selectedCategory == old(selectedCategory) && selectedSubcategory == old(selectedSubcategory)
      ensures onSale == old(onSale)
      ensures list.filters == old(Current()).(priceRange := old(priceRange).With(index, value))
      ensures list.searchTerm == old(list.searchTerm) && list.products == old(list.products)
      ensures list.loading == old(list.loading) && list.error == old(list.error)
      ensures list.filters == Current()
    {
      priceRange := priceRange.With(index, value);
      list.SetFilters(ListProducts.Filters(selectedCategory, selectedSubcategory, priceRange, onSale));
    }

    /** `handleOnSaleChange` */
    method HandleOnSaleChange(checked: bool)
      modifies this, list`filters
      ensures onSale == checked
      ensures selectedCategory == old(selectedCategory) && selectedSubcategory == old(selectedSubcategory)
      ensures priceRange == old(priceRange)
      ensures list.filters == old(Current()).(onSale := checked)
      ensures list.searchTerm == old(list.searchTerm) && list.products == old(list.products)
      ensures list.loading == old(list.loading) && list.error == old(list.error)
      ensures list.filters == Current()
    {
      onSale := checked;
      list.SetFilters(ListProducts.Filters(selectedCategory, selectedSubcategory, priceRange, checked));
    }
  }
}
