/** The settings panel (gui/settings_widget.py): which models the model box
    offers for the selected device, which device is selected at start, and
    the ranges of the beam-size and batch-size sliders. Widgets are reduced
    to the values they hold; Qt's combo box and slider rules that the code
    relies on are written out where they matter. */
module SettingsWidget {
  import opened Common
  import SystemUtils
  import Constants

  const BeamMin: int := 1
  const BeamMax: int := 5
  const BatchMin: int := 1
  const BatchMax: int := 200
  const DefaultBeamSize: int := 1
  const DefaultBatchSize: int := 8
  const DefaultOutputFormat: string := "txt"
  const DefaultTaskMode: string := "transcribe"

  /** Whether a catalog entry of `precision` is offered on `device`: CPU
      takes float32 only; CUDA takes float32 and float16, and bfloat16 when
      the GPU supports it; any other device takes nothing. */
  predicate Offered(device: string, precision: string, bfloat16: bool)
  {
    if device == "cpu" then precision == "float32"
    else if device == "cuda" then
      precision in ["float32", "float16"] || (precision == "bfloat16" && bfloat16)
    else false
  }

  /** The keys the model box lists, in catalog order. */
  function OfferedModels(catalog: Constants.Catalog, device: string, bfloat16: bool): (keys: seq<string>)
    ensures forall k :: k in keys <==>
      exists e :: e in catalog && e.0 == k && Offered(device, e.1.precision, bfloat16)
    ensures IsSubsequence(keys, Constants.Keys(catalog))
  {
    if catalog == [] then []
    else
      var e := catalog[0];
      var rest := OfferedModels(catalog[1..], device, bfloat16);
      assert Constants.Keys(catalog) == [e.0] + Constants.Keys(catalog[1..]);
      assert forall x :: x in catalog <==> x == e || x in catalog[1..];
      if Offered(device, e.1.precision, bfloat16) then
        assert ([e.0] + rest)[1..] == rest;
        [e.0] + rest
      else
        assert rest != [] ==> IsSubsequence(rest, Constants.Keys(catalog)[1..]);
        rest
  }

  /** The filter rule device by device, stated on the offered keys. */
  lemma OfferedModelsByDevice(catalog: Constants.Catalog, bfloat16: bool, k: string)
    ensures k in OfferedModels(catalog, "cpu", bfloat16) <==>
      exists e :: e in catalog && e.0 == k && e.1.precision == "float32"
    ensures k in OfferedModels(catalog, "cuda", bfloat16) <==>
      exists e :: e in catalog && e.0 == k &&
        (e.1.precision == "float32" || e.1.precision == "float16" ||
         (bfloat16 && e.1.precision == "bfloat16"))
  {
  }

  /** Devices other than "cpu" and "cuda" are offered no model at all. */
  lemma {:induction false} OtherDeviceOffersNothing(catalog: Constants.Catalog, device: string, bfloat16: bool)
    requires device != "cpu" && device != "cuda"
    ensures OfferedModels(catalog, device, bfloat16) == []
  {
    if catalog != [] {
      OtherDeviceOffersNothing(catalog[1..], device, bfloat16);
    }
  }

  /** The application's own catalog has no repeated key, so the model box
      never lists a model twice. */
  lemma OfferedModelsDistinct(device: string, bfloat16: bool)
    ensures Distinct(OfferedModels(Constants.WhisperModels(Constants.ModelSpecs), device, bfloat16))
  {
    var catalog := Constants.WhisperModels(Constants.ModelSpecs);
    Constants.WhisperModelsKeys(Constants.ModelSpecs);
    SubsequenceDistinct(OfferedModels(catalog, device, bfloat16), Constants.Keys(catalog));
  }

  /** The device selected at start: "cuda" when it is listed, else "cpu". */
  function DefaultDevice(devices: seq<string>): string
  {
    if "cuda" in devices then "cuda" else "cpu"
  }

  /** With the device list of utils/system_utils.py, the default is "cuda"
      exactly when a CUDA device is visible, and it is always one of the
      listed devices. */
  lemma DefaultDeviceChoice(cudaDeviceCount: int)
    ensures DefaultDevice(SystemUtils.ComputeAndPlatformInfo(cudaDeviceCount))
            == (if cudaDeviceCount > 0 then "cuda" else "cpu")
    ensures DefaultDevice(SystemUtils.ComputeAndPlatformInfo(cudaDeviceCount))
            in SystemUtils.ComputeAndPlatformInfo(cudaDeviceCount)
  {
  }

  /** Qt's rule for a slider: a value set outside its range is moved to the
      nearest bound. */
  function SliderValue(lo: int, hi: int, v: int): (r: int)
    requires lo <= hi
    ensures lo <= r <= hi
    ensures lo <= v <= hi ==> r == v
  {
    if v < lo then lo else if v > hi then hi else v
  }

  /** Adding the entries of a longer catalog extends the list at its end. */
  lemma {:induction false} OfferedModelsSnoc(catalog: Constants.Catalog, e: (string, Constants.ModelInfo),
                                             device: string, bfloat16: bool)
    ensures OfferedModels(catalog + [e], device, bfloat16) ==
      OfferedModels(catalog, device, bfloat16) +
        (if Offered(device, e.1.precision, bfloat16) then [e.0] else [])
  {
    if catalog != [] {
      assert (catalog + [e])[1..] == catalog[1..] + [e];
      OfferedModelsSnoc(catalog[1..], e, device, bfloat16);
    } else {
      assert ([] + [e])[1..] == [];
    }
  }

  class SettingsWidget {
    var deviceItems: seq<string>
    var currentDevice: string
    var modelItems: seq<string>
    var currentModel: string
    var beamSize: int
    var batchSize: int
    var outputFormat: string
    var taskMode: string
    const catalog: Constants.Catalog
    /** What `has_bfloat16_support()` answers on this machine. */
    const bfloat16: bool

    /** What a Qt combo box and slider guarantee: the selected text is one
        of the items (or empty when there are none) and a slider value lies
        within its range. */
    ghost predicate Valid()
      reads this
    {
      currentDevice in deviceItems &&
      (currentModel in modelItems || (modelItems == [] && currentModel == "")) &&
      BeamMin <= beamSize <= BeamMax && BatchMin <= batchSize <= BatchMax
    }

    /** Builds the panel and fills the device box from the devices the
        machine reports; the model box then matches the default device. */
    constructor (catalog: Constants.Catalog, cudaDeviceCount: int, bfloat16: bool)
      ensures Valid()
      ensures this.catalog == catalog && this.bfloat16 == bfloat16
      ensures beamSize == DefaultBeamSize && batchSize == DefaultBatchSize
      ensures outputFormat == DefaultOutputFormat && taskMode == DefaultTaskMode
      ensures deviceItems == SystemUtils.ComputeAndPlatformInfo(cudaDeviceCount)
      ensures currentDevice == (if cudaDeviceCount > 0 then "cuda" else "cpu")
      ensures modelItems == OfferedModels(catalog, currentDevice, bfloat16)
    {
      this.catalog := catalog;
      this.bfloat16 := bfloat16;
      beamSize, batchSize := DefaultBeamSize, DefaultBatchSize;
      outputFormat, taskMode := DefaultOutputFormat, DefaultTaskMode;
      deviceItems, currentDevice, modelItems, currentModel := [], "", [], "";
      new;
      PopulateDevices(cudaDeviceCount);
      DefaultDeviceChoice(cudaDeviceCount);
    }

    /** `_populate_devices`: append the reported devices to an empty device
        box (which selects the first), select "cuda" if listed and "cpu"
        otherwise, then rebuild the model box. */
    method PopulateDevices(cudaDeviceCount: int)
      requires deviceItems == [] && currentDevice == ""
      modifies this`deviceItems, this`currentDevice, this`modelItems, this`currentModel
      ensures deviceItems == SystemUtils.ComputeAndPlatformInfo(cudaDeviceCount)
      ensures currentDevice == DefaultDevice(deviceItems) && currentDevice in deviceItems
      ensures modelItems == OfferedModels(catalog, currentDevice, bfloat16)
      ensures currentModel == (if modelItems == [] then "" else modelItems[0])
    {
      var devices := SystemUtils.ComputeAndPlatformInfo(cudaDeviceCount);
      deviceItems := deviceItems + devices;
      currentDevice := deviceItems[0];
      var choice := if "cuda" in devices then "cuda" else "cpu";
      if choice in deviceItems {
        currentDevice := choice;
      }
      UpdateModelOptions();
    }

    /** `_on_device_changed` after the user picks a device: only listed
        devices can be picked; the model box is rebuilt either way. */
    method SelectDevice(device: string)
      requires Valid()
      modifies this`currentDevice, this`modelItems, this`currentModel
      ensures Valid()
      ensures currentDevice == (if device in deviceItems then device else old(currentDevice))
      ensures modelItems == OfferedModels(catalog, currentDevice, bfloat16)
      ensures currentModel == (if modelItems == [] then "" else modelItems[0])
    {
      if device in deviceItems {
        currentDevice := device;
      }
      UpdateModelOptions();
    }

    /** `_update_model_options`: clear the model box, then walk the catalog
        in order and add each key the current device accepts. As in Qt, the
        first item added to an empty box becomes the selection. */
    method UpdateModelOptions()
      modifies this`modelItems, this`currentModel
      ensures modelItems == OfferedModels(catalog, currentDevice, bfloat16)
      ensures currentModel == (if modelItems == [] then "" else modelItems[0])
    {
      modelItems, currentModel := [], "";
      for i := 0 to |catalog|
        invariant modelItems == OfferedModels(catalog[..i], currentDevice, bfloat16)
        invariant currentModel == (if modelItems == [] then "" else modelItems[0])
      {
        var e := catalog[i];
        assert catalog[..i + 1] == catalog[..i] + [e];
        OfferedModelsSnoc(catalog[..i], e, currentDevice, bfloat16);
        if Offered(currentDevice, e.1.precision, bfloat16) {
          if modelItems == [] {
            currentModel := e.0;
          }
          modelItems := modelItems + [e.0];
        }
      }
      assert catalog[..|catalog|] == catalog;
    }

    /** Picking a model: only listed models can be picked. */
    method SelectModel(key: string)
      requires Valid()
      modifies this`currentModel
      ensures Valid()
      ensures currentModel == (if key in modelItems then key else old(currentModel))
    {
      if key in modelItems {
        currentModel := key;
      }
    }

    method SetBeamSize(v: int)
      modifies this`beamSize
      ensures beamSize == SliderValue(BeamMin, BeamMax, v)
    {
      beamSize := if v < BeamMin then BeamMin else if v > BeamMax then BeamMax else v;
    }

    method SetBatchSize(v: int)
      modifies this`batchSize
      ensures batchSize == SliderValue(BatchMin, BatchMax, v)
    {
      batchSize := if v < BatchMin then BatchMin else if v > BatchMax then BatchMax else v;
    }

    /** `get_model`: one of the offered keys, or empty when none is offered. */
    method GetModel() returns (key: string)
      requires Valid()
      ensures key in modelItems || (modelItems == [] && key == "")
      ensures key == currentModel
    {
      key := currentModel;
    }

    /** `get_device`: always one of the listed devices. */
    method GetDevice() returns (device: string)
      requires Valid()
      ensures device in deviceItems
      ensures device == currentDevice
    {
      device := currentDevice;
    }

    /** `get_beam_size`: always within the slider's range 1..5. */
    method GetBeamSize() returns (v: int)
      requires Valid()
      ensures BeamMin <= v <= BeamMax
      ensures v == beamSize
    {
      v := beamSize;
    }

    /** `get_batch_size`: always within the slider's range 1..200. */
    method GetBatchSize() returns (v: int)
      requires Valid()
      ensures BatchMin <= v <= BatchMax
      ensures v == batchSize
    {
      v := batchSize;
    }
  }
}
