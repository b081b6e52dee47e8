/**
 * The window's controller with its widgets taken away: the selected image
 * path, whether "Generate Caption" is enabled, the status label and the
 * caption box. The file dialog's answer and the description box's text are
 * parameters; a started worker is returned to the caller, whose later
 * DisplayCaption call stands for the worker's signal.
 */
module Controller {
  import opened Wrappers
  import opened PyText
  import opened Transport

  const InitialLabel: string := "Upload an image to generate a caption!"
  const UploadedLabel: string := "Image uploaded! Add an optional description and click 'Generate Caption'."
  const NoImageLabel: string := "Please upload an image first."
  const GeneratingLabel: string := "Generating Caption... Please wait."
  const DoneLabel: string := "Caption generated!"
  const InitialCaption: string := "Caption will appear here."

  /** Python's truth value of `self.image_path`: false for `None` and for the empty string, true otherwise. */
  predicate HasImage(path: Option<string>)
    ensures HasImage(path) <==> path != None && path != Some("")
  {
    path.Some? && path.value != ""
  }

  class CaptionApp {
    var imagePath: Option<string>
    var generateEnabled: bool
    var labelText: string
    var captionText: string

    /**
     * A stored path is never empty: only a non-empty dialog answer is stored.
     * So `self.image_path` is false in Python exactly when no path is stored.
     */
    ghost predicate Valid()
      reads this
    {
      imagePath != Some("")
    }

    /** The state `__init__` and `init_ui` leave behind. */
    constructor ()
      ensures Valid()
      ensures imagePath == None && !generateEnabled
      ensures labelText == InitialLabel && captionText == InitialCaption
    {
      imagePath := None;
      labelText := InitialLabel;
      generateEnabled := false;
      captionText := InitialCaption;
    }

    /**
     * `upload_image`, given the file name the dialog returned ("" when the
     * dialog was cancelled). A real name is stored and re-enables the
     * button whatever state the window is in, a generation in flight included.
     */
    method UploadImage(fileName: string)
      requires Valid()
      modifies this
      ensures Valid()
      ensures fileName != "" ==>
        && imagePath == Some(fileName) && labelText == UploadedLabel && generateEnabled
        && captionText == old(captionText)
      ensures fileName == "" ==>
        && imagePath == old(imagePath) && labelText == old(labelText)
        && generateEnabled == old(generateEnabled) && captionText == old(captionText)
    {
      if fileName != "" {
        imagePath := Some(fileName);
        labelText := UploadedLabel;
        generateEnabled := true;
      }
    }

    /**
     * `start_caption_generation`, given the description box's text. Without
     * an image only the label changes; otherwise the button is disabled and
     * exactly one worker starts, on the stored path and the stripped text.
     */
    method StartCaptionGeneration(descriptionText: string) returns (worker: Option<Worker>)
      requires Valid()
      modifies this
      ensures Valid()
      ensures imagePath == old(imagePath) && captionText == old(captionText)
      ensures old(imagePath) == None ==>
        worker == None && labelText == NoImageLabel && generateEnabled == old(generateEnabled)
      ensures old(imagePath).Some? ==>
        && worker == Some(Worker(old(imagePath).value, Strip(descriptionText)))
        && labelText == GeneratingLabel && !generateEnabled
    {
      if !HasImage(imagePath) {
        labelText := NoImageLabel;
        return None;
      }
      labelText := GeneratingLabel;
      generateEnabled := false;
      var description := Strip(descriptionText);
      worker := Some(Worker(imagePath.value, description));
    }

    /**
     * A click on "Generate Caption": the toolkit delivers it to
     * StartCaptionGeneration only while the button is enabled.
     */
    method ClickGenerate(descriptionText: string) returns (worker: Option<Worker>)
      requires Valid()
      modifies this
      ensures Valid()
      ensures imagePath == old(imagePath) && captionText == old(captionText)
      ensures !old(generateEnabled) ==> worker == None && labelText == old(labelText) && !generateEnabled
      ensures old(generateEnabled) && old(imagePath) == None ==>
        worker == None && labelText == NoImageLabel && generateEnabled
      ensures old(generateEnabled) && old(imagePath).Some? ==>
        && worker == Some(Worker(old(imagePath).value, Strip(descriptionText)))
        && labelText == GeneratingLabel && !generateEnabled
    {
      if generateEnabled {
        worker := StartCaptionGeneration(descriptionText);
      } else {
        worker := None;
      }
    }

    /** `display_caption`: show the worker's caption exactly and re-enable the button. */
    method DisplayCaption(caption: string)
      requires Valid()
      modifies this
      ensures Valid()
      ensures captionText == caption && labelText == DoneLabel && generateEnabled
      ensures imagePath == old(imagePath)
    {
      captionText := caption;
      labelText := DoneLabel;
      generateEnabled := true;
    }
  }

  /** A fresh window: the button is disabled, so a click starts nothing; a direct call only asks for an image. */
  method GenerateBeforeUpload(descriptionText: string) returns (clicked: Option<Worker>, called: Option<Worker>, shownLabel: string, path: Option<string>)
    ensures clicked == None && called == None
    ensures shownLabel == NoImageLabel && path == None
  {
    var app := new CaptionApp();
    clicked := app.ClickGenerate(descriptionText);
    called := app.StartCaptionGeneration(descriptionText);
    shownLabel, path := app.labelText, app.imagePath;
  }

  /** A cancelled dialog leaves a fresh window exactly as it was. */
  method CancelledUpload() returns (path: Option<string>, enabled: bool, shownLabel: string)
    ensures path == None && !enabled && shownLabel == InitialLabel
  {
    var app := new CaptionApp();
    app.UploadImage("");
    path, enabled, shownLabel := app.imagePath, app.generateEnabled, app.labelText;
  }

  /** Choosing image A and then image B before generating: the worker gets B. */
  method LastUploadWins(a: string, b: string, descriptionText: string) returns (worker: Option<Worker>)
    requires a != "" && b != ""
    ensures worker == Some(Worker(b, Strip(descriptionText)))
  {
    var app := new CaptionApp();
    app.UploadImage(a);
    app.UploadImage(b);
    worker := app.ClickGenerate(descriptionText);
  }

  /** While a generation runs the button is disabled, so a second click starts no worker. */
  method ClickWhileGenerating(path: string, t1: string, t2: string) returns (first: Option<Worker>, second: Option<Worker>)
    requires path != ""
    ensures first == Some(Worker(path, Strip(t1)))
    ensures second == None
  {
    var app := new CaptionApp();
    app.UploadImage(path);
    first := app.ClickGenerate(t1);
    second := app.ClickGenerate(t2);
  }

  /**
   * Uploading during a generation re-enables the button, so a second worker
   * starts before the first one's caption is displayed: two requests are then
   * in flight at once.
   */
  method UploadDuringGeneration(a: string, b: string, t1: string, t2: string) returns (first: Option<Worker>, second: Option<Worker>)
    requires a != "" && b != ""
    ensures first == Some(Worker(a, Strip(t1)))
    ensures second == Some(Worker(b, Strip(t2)))
  {
    var app := new CaptionApp();
    app.UploadImage(a);
    first := app.ClickGenerate(t1);
    app.UploadImage(b);
    second := app.ClickGenerate(t2);
  }

  /**
   * One whole cycle: upload, click, the worker runs against `env`, its caption
   * is displayed. The window ends showing exactly the worker's caption, built
   * from this path and the stripped text, with the button enabled again.
   */
  method GenerateCycle(path: string, descriptionText: string, env: Env) returns (shown: string, shownLabel: string, enabled: bool)
    requires path != ""
    ensures shown == Run(Worker(path, Strip(descriptionText)), env)
    ensures shownLabel == DoneLabel && enabled
  {
    var app := new CaptionApp();
    app.UploadImage(path);
    var worker := app.ClickGenerate(descriptionText);
    app.DisplayCaption(Run(worker.value, env));
    shown, shownLabel, enabled := app.captionText, app.labelText, app.generateEnabled;
  }
}
