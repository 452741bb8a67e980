/** The detection summary of one image: one record per detected box, and the disease reported for
    the image, the label detected most often or "Healthy" when nothing is detected. */
module VisionInference {
  import opened Wrappers

  const Healthy := "Healthy"

  /** One box of the detector's output: its class id, confidence and corners. `F` is the
      detector's floating-point type, carried through unchanged. */
  datatype Box<F> = Box(classId: int, conf: F, x1: F, y1: F, x2: F, y2: F)

  /** `{"x1", "y1", "x2", "y2", "confidence", "label"}`. */
  datatype Detection<F> = Detection(x1: F, y1: F, x2: F, y2: F, confidence: F, classLabel: string)

  /** `yolo_model.names`: class id to label. */
  type Names = map<int, string>

  /** The record built for a box whose class has a name. */
  function DetectionOf<F>(b: Box<F>, names: Names): Detection<F>
    requires b.classId in names
  {
    Detection(b.x1, b.y1, b.x2, b.y2, b.conf, names[b.classId])
  }

  function Labels<F>(ds: seq<Detection<F>>): (ls: seq<string>)
    ensures |ls| == |ds|
    ensures forall j :: 0 <= j < |ds| ==> ls[j] == ds[j].classLabel
  {
    seq(|ds|, j requires 0 <= j < |ds| => ds[j].classLabel)
  }

  /** How many detections carry the label `l`: `sum(d["label"] == x for d in detections)`. */
  function Count(labels: seq<string>, l: string): nat {
    multiset(labels)[l]
  }

  /** The candidate with the highest count in `labels`; of equal counts the earliest candidate wins. */
  function ArgMax(labels: seq<string>, candidates: seq<string>): (m: string)
    requires candidates != []
    ensures m in candidates
    ensures forall c :: c in candidates ==> Count(labels, c) <= Count(labels, m)
  {
    if |candidates| == 1 then candidates[0]
    else
      var rest := ArgMax(labels, candidates[1..]);
      assert forall c :: c in candidates ==> c == candidates[0] || c in candidates[1..];
      if Count(labels, candidates[0]) >= Count(labels, rest) then candidates[0] else rest
  }

  /** `max(disease_labels, key=count)`, or "Healthy" when nothing was detected: a label that occurs
      at least as often as every other. */
  function DetectedDisease(labels: seq<string>): (d: string)
    ensures labels == [] ==> d == Healthy
    ensures labels != [] ==> d in labels && forall l :: l in labels ==> Count(labels, l) <= Count(labels, d)
  {
    if labels == [] then Healthy else ArgMax(labels, labels)
  }

  /** A label detected strictly more often than every other is the one reported. */
  lemma UniqueMostFrequent(labels: seq<string>, winner: string)
    requires winner in labels
    requires forall l :: l in labels && l != winner ==> Count(labels, l) < Count(labels, winner)
    ensures DetectedDisease(labels) == winner
  {
  }

  /** The detection loop and label selection of `run_yolo_inference`. Each box, in order, yields
      one record with its corners, confidence and label, and the label set is exactly the labels
      of those records; a class id with no name raises, naming the first such box's id. */
  method RunYoloInference<F>(boxes: seq<Box<F>>, names: Names)
    returns (r: Result<(string, seq<Detection<F>>), Fault>)
    ensures r.Err? <==> exists j :: 0 <= j < |boxes| && boxes[j].classId !in names
    ensures r.Err? ==>
      exists j :: && 0 <= j < |boxes|
                  && r.error == UnknownClass(boxes[j].classId)
                  && boxes[j].classId !in names
                  && forall i :: 0 <= i < j ==> boxes[i].classId in names
    ensures r.Ok? ==>
      var (disease, detections) := r.value;
      && |detections| == |boxes|
      && (forall j :: 0 <= j < |boxes| ==> boxes[j].classId in names && detections[j] == DetectionOf(boxes[j], names))
      && disease == DetectedDisease(Labels(detections))
  {
    var detections: seq<Detection<F>> := [];
    var diseaseLabels: set<string> := {};
    var i := 0;
    while i < |boxes|
      invariant 0 <= i <= |boxes|
      invariant |detections| == i
      invariant forall j :: 0 <= j < i ==> boxes[j].classId in names && detections[j] == DetectionOf(boxes[j], names)
      invariant diseaseLabels == set j | 0 <= j < i :: detections[j].classLabel
    {
      var box := boxes[i];
      if box.classId !in names {
        return Err(UnknownClass(box.classId));
      }
      var name := names[box.classId];
      detections := detections + [Detection(box.x1, box.y1, box.x2, box.y2, box.conf, name)];
      diseaseLabels := diseaseLabels + {name};
      i := i + 1;
    }
    LabelSetIsLabels(detections, diseaseLabels);
    var disease := if diseaseLabels != {} then DetectedDisease(Labels(detections)) else Healthy;
    r := Ok((disease, detections));
  }

  /** The set the loop accumulates is the set of the detections' labels, so it is empty exactly
      when there are no detections. */
  lemma LabelSetIsLabels<F>(detections: seq<Detection<F>>, labelSet: set<string>)
    requires labelSet == set j | 0 <= j < |detections| :: detections[j].classLabel
    ensures labelSet == set l | l in Labels(detections)
    ensures labelSet == {} <==> detections == []
  {
    if detections != [] {
      assert detections[0].classLabel in labelSet;
    }
  }
}
