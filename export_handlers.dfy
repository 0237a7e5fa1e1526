/**
 * The COCO object-detection export (`handleExportCOCO`): one annotation per
 * canvas object, one image for the whole canvas, one category. The `info`
 * block and the capture date come from the clock and are not modelled.
 */
module CocoExport {

  import opened Wrappers
  import opened Fabric

  /** An entry of `annotations`; `bbox` is `[x, y, width, height]`. */
  datatype Annotation = Annotation(
    segmentation: seq<seq<real>>, area: real, iscrowd: nat, imageId: nat,
    bbox: seq<real>, categoryId: nat, id: nat)

  /** The single entry of `images`, sized like the canvas. */
  datatype ImageEntry = ImageEntry(
    license: nat, fileName: string, cocoUrl: string, height: real, width: real, flickrUrl: string, id: nat)

  datatype License = License(url: string, id: nat, name: string)

  datatype Category = Category(supercategory: string, id: nat, name: string)

  datatype CocoData = CocoData(
    licenses: seq<License>, images: seq<ImageEntry>, annotations: seq<Annotation>, categories: seq<Category>)

  const LicenseUrl: string := "http://creativecommons.org/licenses/by-nc-sa/2.0/"
  const LicenseName: string := "Attribution-NonCommercial-ShareAlike License"
  const ExportFileName: string := "canvas_export.png"

  /** The annotation of the object at `index` with bounding rectangle `b`. */
  function AnnotationOf(b: Box, index: nat): Annotation
  {
    Annotation([], b.width * b.height, 0, 1, [b.left, b.top, b.width, b.height], 1, index + 1)
  }

  /**
   * `objects.map((obj, index) => ...)` over the objects' bounding rectangles:
   * one annotation per object, in order, numbered from 1.
   */
  function Annotations(boxes: seq<Box>): (r: seq<Annotation>)
    ensures |r| == |boxes|
    ensures forall i :: 0 <= i < |boxes| ==>
              && r[i].id == i + 1
              && r[i].bbox == [boxes[i].left, boxes[i].top, boxes[i].width, boxes[i].height]
              && r[i].area == boxes[i].width * boxes[i].height
              && r[i].imageId == 1 && r[i].categoryId == 1 && r[i].iscrowd == 0 && r[i].segmentation == []
  {
    seq(|boxes|, i requires 0 <= i < |boxes| => AnnotationOf(boxes[i], i))
  }

  /** The export of a canvas of the given size holding objects with the given bounding rectangles. */
  function Coco(boxes: seq<Box>, width: real, height: real): (d: CocoData)
    ensures d.annotations == Annotations(boxes)
    ensures |d.images| == 1 && d.images[0].id == 1 && d.images[0].width == width && d.images[0].height == height
    ensures |d.categories| == 1 && d.categories[0].id == 1 && d.categories[0].name == "shape"
    ensures |d.licenses| == 1 && d.licenses[0].id == d.images[0].license
  {
    CocoData(
      [License(LicenseUrl, 1, LicenseName)],
      [ImageEntry(1, ExportFileName, "", height, width, "", 1)],
      Annotations(boxes),
      [Category("shape", 1, "shape")])
  }

  /** The ids are n distinct numbers between 1 and n, so each of 1..n is used exactly once. */
  lemma AnnotationIds(boxes: seq<Box>)
    ensures var r := Annotations(boxes);
            && (forall i, j :: 0 <= i < j < |r| ==> r[i].id != r[j].id)
            && (forall a <- r :: 1 <= a.id <= |boxes|)
  {
  }

  /** The box an annotation's `bbox` describes. */
  function BoxOf(a: Annotation): Box
  {
    if |a.bbox| == 4 then Box(a.bbox[0], a.bbox[1], a.bbox[2], a.bbox[3]) else Box(0.0, 0.0, 0.0, 0.0)
  }

  /** Nothing about the boxes is lost: each can be read back from its annotation, whose area it determines. */
  lemma AnnotationsKeepBoxes(boxes: seq<Box>)
    ensures var r := Annotations(boxes);
            forall i :: 0 <= i < |boxes| ==> BoxOf(r[i]) == boxes[i] && r[i].area == BoxOf(r[i]).width * BoxOf(r[i]).height
  {
  }

  /** `handleExportCOCO`: nothing without a canvas; otherwise the export of its objects, in canvas order. */
  method HandleExportCoco(canvas: Canvas?) returns (data: Option<CocoData>)
    ensures canvas == null ==> data == None
    ensures canvas != null ==> data == Some(Coco(BoundingRects(canvas.objects), canvas.width, canvas.height))
  {
    if canvas == null {
      return None;
    }
    data := Some(Coco(BoundingRects(canvas.objects), canvas.width, canvas.height));
  }
}
