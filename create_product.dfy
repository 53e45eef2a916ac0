/**
 * The form that creates a catalogue product: text fields, a category with dependent
 * subcategory options, an image chosen by file picker or drag and drop, and a save that
 * validates the form and posts it to the catalogue service.
 */
module CreateProduct {
  import opened Common
  import opened Text
  import AuthContext

  /** A file the browser hands over: its name and MIME type. */
  datatype FileInfo = FileInfo(name: string, mimeType: string)

  /** The `imageProduct` state: `null`, a string (an URL, or `''` after a save), or a file. */
  datatype Image = NoImage | Url(url: string) | File(file: FileInfo)

  /** JavaScript truthiness of `imageProduct`: a file is an object, so always truthy. */
  predicate ImageTruthy(image: Image)
  {
    image.File? || (image.Url? && image.url != "")
  }

  predicate IsImageFile(file: FileInfo)
  {
    StartsWith(file.mimeType, "image/")
  }

  const NoFileName := "Sin archivos seleccionados"
  const OnlyImages := "Solo se permiten archivos de imagen"
  const Saved := "Producto guardado exitosamente!"

  /**
   * The `errors` object: one optional message per field. A field that was never flagged,
   * or was reset to `null`, is `None`; `Some("")` is a message cleared to the empty string.
   */
  datatype FormErrors = FormErrors(
    productName: Option<string>,
    productDescription: Option<string>,
    productPrice: Option<string>,
    imageProduct: Option<string>,
    category: Option<string>)

  const NoErrors := FormErrors(None, None, None, None, None)

  /** The subcategory options of each category of the menu; none for any other value. */
  function SubcategoriesFor(category: string): (options: seq<string>)
    ensures category == "Otro" ==> options == ["Otro"]
    ensures |options| == 0 || |options| == 1 || |options| == 3
  {
    if category == "Zapatillas" then ["Running", "Casual", "Deportivo"]
    else if category == "Ropa" then ["Camisetas", "Pantalones", "Chaquetas"]
    else if category == "Accesorios" then ["Relojes", "Gafas de Sol", "Bolsos"]
    else if category == "Tecnologia" then ["Computadoras", "Celulares", "Electrodomésticos"]
    else if category == "Hogar" then ["Muebles", "Decoración", "Menaje de Cocina"]
    else if category == "Deportes" then ["Balones", "Accesorios de Deporte", "Ropa Deportiva"]
    else if category == "Otro" then ["Otro"]
    else []
  }

  /** The categories the menu offers. */
  predicate MenuCategory(category: string)
  {
    category in {"Zapatillas", "Ropa", "Accesorios", "Tecnologia", "Hogar", "Deportes", "Otro"}
  }

  /** Every category of the menu has options to pick from; any other value has none. */
  lemma SubcategoriesOfMenu(category: string)
    ensures MenuCategory(category) <==> |SubcategoriesFor(category)| > 0
  {
  }

  const NameRequired := "El nombre del producto es obligatorio"
  const NameTooShort := "El nombre del producto debe tener al menos 3 caracteres"
  const DescriptionRequired := "La descripción es obligatoria"
  const DescriptionOutOfBounds := "La descripción debe tener al menos 10 caracteres y no debe pasar los 100 caracteres"
  const PriceRequired := "El precio es obligatorio"
  const ImageRequired := "La URL de la imagen es obligatoria"
  const CategoryRequired := "Debes seleccionar una categoría válida"

  /** The name's message; lengths are JavaScript's, in UTF-16 code units, after `trim`. */
  function NameError(name: string): (m: Option<string>)
    ensures m.Some? <==> JsLength(Trim(name)) < 3
    ensures Trim(name) == "" ==> m == Some(NameRequired)
    ensures Trim(name) != "" && JsLength(Trim(name)) < 3 ==> m == Some(NameTooShort)
    ensures m.Some? ==> m.value != ""
  {
    if Trim(name) == "" then Some(NameRequired)
    else if JsLength(Trim(name)) < 3 then Some(NameTooShort)
    else None
  }

  function DescriptionError(description: string): (m: Option<string>)
    ensures m.Some? <==> JsLength(Trim(description)) < 10 || JsLength(Trim(description)) > 100
    ensures Trim(description) == "" ==> m == Some(DescriptionRequired)
    ensures Trim(description) != "" && (JsLength(Trim(description)) < 10 || JsLength(Trim(description)) > 100) ==>
      m == Some(DescriptionOutOfBounds)
    ensures m.Some? ==> m.value != ""
  {
    if Trim(description) == "" then Some(DescriptionRequired)
    else if JsLength(Trim(description)) < 10 || JsLength(Trim(description)) > 100 then Some(DescriptionOutOfBounds)
    else None
  }

  function PriceError(price: string): (m: Option<string>)
    ensures m.Some? <==> Trim(price) == ""
    ensures m.Some? ==> m == Some(PriceRequired)
  {
    if Trim(price) == "" then Some(PriceRequired) else None
  }

  function ImageError(image: Image): (m: Option<string>)
    ensures m.Some? <==> !ImageTruthy(image)
    ensures m.Some? ==> m == Some(ImageRequired)
  {
    if !ImageTruthy(image) then Some(ImageRequired) else None
  }

  function CategoryError(category: string): (m: Option<string>)
    ensures m.Some? <==> category == ""
    ensures m.Some? ==> m == Some(CategoryRequired)
  {
    if category == "" then Some(CategoryRequired) else None
  }

  /** `validateForm`: a message for each field that is missing or out of bounds, and for no other. */
  function ValidateForm(name: string, description: string, price: string, image: Image, category: string): (errors: FormErrors)
    ensures errors.productName.Some? <==> JsLength(Trim(name)) < 3
    ensures errors.productDescription.Some? <==> JsLength(Trim(description)) < 10 || JsLength(Trim(description)) > 100
    ensures errors.productPrice.Some? <==> Trim(price) == ""
    ensures errors.imageProduct.Some? <==> !ImageTruthy(image)
    ensures errors.category.Some? <==> category == ""
    ensures errors.productName == NameError(name) && errors.productDescription == DescriptionError(description)
    ensures && (errors.productName.Some? ==> errors.productName.value != "")
            && (errors.productDescription.Some? ==> errors.productDescription.value != "")
            && (errors.productPrice.Some? ==> errors.productPrice.value == PriceRequired)
            && (errors.imageProduct.Some? ==> errors.imageProduct.value == ImageRequired)
            && (errors.category.Some? ==> errors.category.value == CategoryRequired)
  {
    FormErrors(NameError(name), DescriptionError(description), PriceError(price), ImageError(image), CategoryError(category))
  }

  /** The form is accepted exactly when every field is within its bounds. */
  lemma ValidateFormEmpty(name: string, description: string, price: string, image: Image, category: string)
    ensures ValidateForm(name, description, price, image, category) == NoErrors <==>
      JsLength(Trim(name)) >= 3 && 10 <= JsLength(Trim(description)) <= 100 && !Blank(price) && ImageTruthy(image) && category != ""
  {
  }

  /** The product `saveProduct` hands to the catalogue service. */
  datatype NewProduct = NewProduct(
    productName: string,
    productDescription: string,
    productPrice: string,
    imageProduct: Image,
    enOferta: bool,
    categoriaProduct: string,
    subCategoriaProduct: string)

  /** The fields of the form that `handleChange` sets. */
  datatype FormFields = FormFields(
    productName: string,
    productDescription: string,
    productPrice: string,
    imageProduct: Image,
    enOferta: bool,
    categoriaProduct: string,
    subcategoryOptions: seq<string>,
    selectedSubCategoria: string,
    fileName: string)

  /** The `handleChange` event: a checkbox, a file input, or a named text field (including the price field's call). */
  datatype ChangeEvent = Checkbox(checked: bool) | FileInput(file: FileInfo) | Input(name: string, value: string)

  class ProductForm {
    var productName: string
    var productDescription: string
    var productPrice: string
    var imageProduct: Image
    var enOferta: bool
    var categoriaProduct: string
    /** The options of the subcategory menu (the source keeps them in `subCategoriaProduct`). */
    var subcategoryOptions: seq<string>
    var selectedSubCategoria: string
    var successMessage: string
    var showSuccessMessage: bool
    var errors: FormErrors
    var fileName: string
    var navigations: seq<Navigation>
    const auth: AuthContext.AuthProvider

    /** The form as it starts, and as a successful save leaves it (apart from the image and the message). */
    predicate Blank()
      reads this
    {
      && productName == "" && productDescription == "" && productPrice == ""
      && !enOferta && categoriaProduct == "" && subcategoryOptions == [] && selectedSubCategoria == ""
      && errors == NoErrors && fileName == NoFileName
    }

    constructor (auth: AuthContext.AuthProvider)
      ensures this.auth == auth && Blank() && imageProduct == NoImage
      ensures successMessage == "" && !showSuccessMessage && navigations == []
    {
      this.auth := auth;
      productName, productDescription, productPrice := "", "", "";
      imageProduct := NoImage;
      enOferta := false;
      categoriaProduct := "";
      subcategoryOptions := [];
      selectedSubCategoria := "";
      successMessage := "";
      showSuccessMessage := false;
      errors := NoErrors;
      fileName := NoFileName;
      navigations := [];
    }

    /** Without a signed-in user the page shows only a link to the sign-in page. */
    predicate FormShown()
      reads this, auth
    {
      auth.user.Some?
    }

    method GoToLogin()
      modifies this`navigations
      ensures navigations == old(navigations) + [Navigation("/log-in", None)]
    {
      navigations := navigations + [Navigation("/log-in", None)];
    }

    /** The subcategory menu appears once a category with options is chosen. */
    predicate SubcategoryMenuShown()
      reads this
    {
      categoriaProduct != "" && |subcategoryOptions| > 0
    }

    /** The form after a resolved save: every field reset, the image to `''`, the message shown. */
    ghost predicate ResetAfterSave()
      reads this
    {
      Blank() && imageProduct == Url("") && successMessage == Saved && showSuccessMessage
    }

    /** The messages `validateForm` finds for the form as it stands; see `ValidateFormEmpty` for when there are none. */
    function Errors(): FormErrors
      reads this`productName, this`productDescription, this`productPrice, this`imageProduct, this`categoriaProduct
    {
      ValidateForm(productName, productDescription, productPrice, imageProduct, categoriaProduct)
    }

    /** The product the form would send as it stands. */
    function Product(): (p: NewProduct)
      reads this`productName, this`productDescription, this`productPrice, this`imageProduct, this`enOferta
      reads this`categoriaProduct, this`selectedSubCategoria
      ensures p.productName == productName && p.imageProduct == imageProduct
      ensures p.subCategoriaProduct == selectedSubCategoria
    {
      NewProduct(productName, productDescription, productPrice, imageProduct, enOferta, categoriaProduct, selectedSubCategoria)
    }

    /**
     * `saveProduct`: validate; if anything is wrong show the messages and send nothing,
     * otherwise hand the product to the catalogue service and leave the form as it is.
     * What happens when the service answers is `SaveSucceeded`; a rejected save only logs.
     */
    method SaveProduct() returns (sent: Option<NewProduct>)
      modifies this`errors
      ensures sent.Some? <==> old(Errors()) == NoErrors
      ensures sent.Some? ==> sent.value == Product() && errors == old(errors)
      ensures sent.None? ==> errors == old(Errors())
    {
      var newErrors := Errors();
      if newErrors != NoErrors {
        errors := newErrors;
        sent := None;
        return;
      }
      sent := Some(Product());
    }

    /**
     * The `.then` of a save: every field back to its start, the image to `''` and the options
     * (the source sets them to `''`, whose length is 0) to none; the success message shows.
     */
    method SaveSucceeded()
      modifies this`productName, this`productDescription, this`productPrice, this`imageProduct, this`enOferta
      modifies this`categoriaProduct, this`subcategoryOptions, this`selectedSubCategoria, this`errors, this`fileName
      modifies this`successMessage, this`showSuccessMessage
      ensures ResetAfterSave()
    {
      productName, productDescription, productPrice, imageProduct,
        enOferta, categoriaProduct, subcategoryOptions, selectedSubCategoria,
        errors, fileName, successMessage, showSuccessMessage :=
        "", "", "", Url(""), false, "", [], "", NoErrors, NoFileName, Saved, true;
    }

    /** The 3-second timer after a save. */
    method HideSuccessMessage()
      modifies this`showSuccessMessage
      ensures !showSuccessMessage
    {
      showSuccessMessage := false;
    }

    /** The fields `handleChange` may set, as one value. */
    function Fields(): FormFields
      reads this`productName, this`productDescription, this`productPrice, this`imageProduct, this`enOferta
      reads this`categoriaProduct, this`subcategoryOptions, this`selectedSubCategoria, this`fileName
    {
      FormFields(productName, productDescription, productPrice, imageProduct, enOferta,
        categoriaProduct, subcategoryOptions, selectedSubCategoria, fileName)
    }

    /** `handleChange`: each kind of event sets its own fields and no others; errors and messages stay. */
    method HandleChange(e: ChangeEvent)
      modifies this`productName, this`productDescription, this`productPrice, this`imageProduct, this`enOferta
      modifies this`categoriaProduct, this`subcategoryOptions, this`selectedSubCategoria, this`fileName
      ensures e.Checkbox? ==> Fields() == old(Fields()).(enOferta := e.checked)
      ensures e.FileInput? ==> Fields() == old(Fields()).(imageProduct := File(e.file), fileName := e.file.name)
      ensures e.Input? && e.name == "name" ==> Fields() == old(Fields()).(productName := e.value)
      ensures e.Input? && e.name == "description" ==> Fields() == old(Fields()).(productDescription := e.value)
      ensures e.Input? && e.name == "price" ==> Fields() == old(Fields()).(productPrice := e.value)
      ensures e.Input? && e.name == "imageUrl" ==> Fields() == old(Fields()).(imageProduct := Url(e.value))
      ensures e.Input? && e.name == "category" ==>
        Fields() == old(Fields()).(categoriaProduct := e.value, subcategoryOptions := SubcategoriesFor(e.value), selectedSubCategoria := "")
      ensures e.Input? && e.name == "subcategory" ==> Fields() == old(Fields()).(selectedSubCategoria := e.value)
      ensures e.Input? && e.name !in {"name", "description", "price", "imageUrl", "category", "subcategory"} ==>
        Fields() == old(Fields())
    {
      match e {
        case Checkbox(checked) =>
          enOferta := checked;
        case FileInput(file) =>
          imageProduct := File(file);
          fileName := file.name;
        case Input(name, value) =>
          if name == "name" {
            productName := value;
          } else if name == "description" {
            productDescription := value;
          } else if name == "price" {
            productPrice := value;
          } else if name == "imageUrl" {
            imageProduct := Url(value);
          } else if name == "category" {
            categoriaProduct := value;
            subcategoryOptions := SubcategoriesFor(value);
            selectedSubCategoria := "";
          } else if name == "subcategory" {
            selectedSubCategoria := value;
          }
      }
    }

    /** `handleDrop`: keep the first dropped file if it is an image; otherwise flag the image field. */
    method HandleDrop(files: seq<FileInfo>)
      modifies this`imageProduct, this`fileName, this`errors
      ensures |files| > 0 && IsImageFile(files[0]) ==>
        imageProduct == File(files[0]) && fileName == files[0].name && errors == old(errors)
      ensures !(|files| > 0 && IsImageFile(files[0])) ==>
        imageProduct == old(imageProduct) && fileName == old(fileName) && errors == old(errors).(imageProduct := Some(OnlyImages))
      ensures productName == old(productName) && navigations == old(navigations)
    {
      if |files| > 0 && IsImageFile(files[0]) {
        imageProduct := File(files[0]);
        fileName := files[0].name;
      } else {
        errors := errors.(imageProduct := Some(OnlyImages));
      }
    }

    /** `handleFileChange`: as a drop, but an accepted file also clears the image message; no file resets the name. */
    method HandleFileChange(file: Option<FileInfo>)
      modifies this`imageProduct, this`fileName, this`errors
      ensures file.Some? && IsImageFile(file.value) ==>
        imageProduct == File(file.value) && fileName == file.value.name && errors == old(errors).(imageProduct := Some(""))
      ensures file.Some? && !IsImageFile(file.value) ==>
        imageProduct == old(imageProduct) && fileName == old(fileName) && errors == old(errors).(imageProduct := Some(OnlyImages))
      ensures file.None? ==> imageProduct == old(imageProduct) && fileName == NoFileName && errors == old(errors)
      ensures productName == old(productName) && navigations == old(navigations)
    {
      if file.Some? {
        if IsImageFile(file.value) {
          imageProduct := File(file.value);
          fileName := file.value.name;
          errors := errors.(imageProduct := Some(""));
        } else {
          errors := errors.(imageProduct := Some(OnlyImages));
        }
      } else {
        fileName := NoFileName;
      }
    }

    /** `handleRemoveFile`: drop the image and its message. */
    method HandleRemoveFile()
      modifies this`imageProduct, this`fileName, this`errors
      ensures imageProduct == NoImage && fileName == NoFileName && errors == old(errors).(imageProduct := None)
      ensures productName == old(productName) && navigations == old(navigations)
    {
      imageProduct := NoImage;
      fileName := NoFileName;
      errors := errors.(imageProduct := None);
    }
  }
}
