/** The visibility table of the graphical interface, `Widget_conditions.conditions`
    (widget_conditions.py:15-1874): for each widget, the controller widgets whose current
    text decides whether it is shown, and the texts each controller must show. */
module WidgetConditions {
  import opened Outcomes

  /** Every widget the table names, as a key or as a controller, grouped by the
      section of the settings its name starts with. */
  datatype Widget =
    | Paths(PathsInput)
    | Problem(ProblemInput)
    | Data(DataInput)
    | Train(TrainInput)
    | Model(ModelInput)
    | Test(TestInput)
    | Augmentor(AugmentorInput)
    | AugmentorView(AugmentorLayout)
    | InstanceSegView(InstanceSegLayout)
    | DetectionView(DetectionLayout)
    | GeneralView(GeneralLayout)

  /** The inputs of the `PATHS` settings. */
  datatype PathsInput =
    | PATHS__CHECKPOINT_FILE__INPUT

  /** The inputs of the `PROBLEM` settings. */
  datatype ProblemInput =
    | PROBLEM__SELF_SUPERVISED__PRETEXT_TASK__INPUT
    | PROBLEM__SELF_SUPERVISED__RESIZING_FACTOR__INPUT
    | PROBLEM__INSTANCE_SEG__DATA_CHANNELS__INPUT
    | PROBLEM__INSTANCE_SEG__DATA_MW_TH_TYPE__INPUT
    | PROBLEM__INSTANCE_SEG__DATA_MW_TH_BINARY_MASK__INPUT
    | PROBLEM__INSTANCE_SEG__DATA_MW_TH_CONTOUR__INPUT
    | PROBLEM__INSTANCE_SEG__DATA_MW_TH_DISTANCE__INPUT
    | PROBLEM__INSTANCE_SEG__DISTANCE_CHANNEL_MASK__INPUT
    | PROBLEM__INSTANCE_SEG__DATA_MW_TH_POINTS__INPUT
    | PROBLEM__INSTANCE_SEG__DATA_MW_TH_FOREGROUND__INPUT
    | PROBLEM__INSTANCE_SEG__DISTANCE_CHANNEL_MASK__LABEL
    | PROBLEM__INSTANCE_SEG__DATA_CONTOUR_MODE__LABEL
    | PROBLEM__INSTANCE_SEG__DATA_CONTOUR_MODE__INPUT
    | PROBLEM__INSTANCE_SEG__ERODE_AND_DILATE_FOREGROUND__INPUT
    | PROBLEM__INSTANCE_SEG__FORE_EROSION_RADIUS__INPUT
    | PROBLEM__INSTANCE_SEG__FORE_DILATION_RADIUS__INPUT
    | PROBLEM__INSTANCE_SEG__DATA_REMOVE_BEFORE_MW__INPUT
    | PROBLEM__INSTANCE_SEG__DATA_REMOVE_SMALL_OBJ_BEFORE__INPUT
    | PROBLEM__DETECTION__DATA_CHECK_MW__INPUT

  /** The inputs of the `DATA` settings. */
  datatype DataInput =
    | DATA__VAL__TYPE__INPUT
    | DATA__VAL__SPLIT_TRAIN__INPUT
    | DATA__VAL__CROSS_VAL_NFOLD__INPUT
    | DATA__VAL__CROSS_VAL_FOLD__INPUT
    | DATA__TEST__USE_VAL_AS_TEST__INPUT
    | DATA__VAL__PATH__LABEL
    | DATA__VAL__PATH__INPUT
    | DATA__VAL__GT_PATH__INPUT
    | DATA__VAL__IN_MEMORY__INPUT
    | DATA__TEST__PATH__INPUT
    | DATA__TEST__LOAD_GT__INPUT
    | DATA__TEST__GT_PATH__INPUT
    | DATA__TEST__IN_MEMORY__INPUT
    | DATA__VAL__RANDOM__INPUT
    | DATA__VAL__OVERLAP__INPUT
    | DATA__VAL__PADDING__INPUT
    | DATA__NORMALIZATION__TYPE__INPUT
    | DATA__NORMALIZATION__CUSTOM_MEAN__INPUT
    | DATA__NORMALIZATION__CUSTOM_STD__INPUT
    | DATA__EXTRACT_RANDOM_PATCH__INPUT

  /** The inputs of the `TRAIN` settings. */
  datatype TrainInput =
    | TRAIN__ENABLE__INPUT
    | TRAIN__W_DECAY__INPUT
    | TRAIN__OPTIMIZER__INPUT
    | TRAIN__PROFILER__INPUT
    | TRAIN__PROFILER_BATCH_RANGE__INPUT
    | TRAIN__LR_SCHEDULER__NAME__INPUT
    | TRAIN__LR_SCHEDULER__WARMUP_COSINE_DECAY_EPOCHS__INPUT
    | TRAIN__LR_SCHEDULER__MIN_LR__INPUT
    | TRAIN__LR_SCHEDULER__REDUCEONPLATEAU_PATIENCE__INPUT
    | TRAIN__LR_SCHEDULER__REDUCEONPLATEAU_FACTOR__INPUT

  /** The inputs of the `MODEL` settings. */
  datatype ModelInput =
    | MODEL__LOAD_CHECKPOINT__INPUT
    | MODEL__ARCHITECTURE__INPUT
    | MODEL__UNETR_VIT_HIDD_MULT__INPUT
    | MODEL__UNETR_VIT_NUM_FILTERS__INPUT
    | MODEL__UNETR_DEC_ACTIVATION__INPUT
    | MODEL__MAE_DEC_HIDDEN_SIZE__INPUT
    | MODEL__MAE_DEC_HIDDEN_SIZE__LABEL
    | MODEL__MAE_DEC_NUM_LAYERS__INPUT
    | MODEL__MAE_DEC_NUM_LAYERS__LABEL
    | MODEL__MAE_DEC_NUM_HEADS__INPUT
    | MODEL__MAE_DEC_NUM_HEADS__LABEL
    | MODEL__MAE_DEC_MLP_DIMS__INPUT
    | MODEL__MAE_DEC_MLP_DIMS__LABEL

  /** The inputs of the `TEST` settings. */
  datatype TestInput =
    | TEST__ENABLE__INPUT
    | TEST__POST_PROCESSING__YZ_FILTERING__SEM_SEG__INPUT
    | TEST__POST_PROCESSING__YZ_FILTERING_SIZE__SEM_SEG__INPUT
    | TEST__POST_PROCESSING__Z_FILTERING__SEM_SEG__INPUT
    | TEST__POST_PROCESSING__Z_FILTERING_SIZE__SEM_SEG__INPUT
    | TEST__POST_PROCESSING__REPARE_LARGE_BLOBS_SIZE__INPUT
    | TEST__POST_PROCESSING__REMOVE_CLOSE_POINTS__INST_SEG__INPUT
    | TEST__POST_PROCESSING__REMOVE_CLOSE_POINTS_RADIUS__INST_SEG__INPUT
    | TEST__POST_PROCESSING__VORONOI_ON_MASK__INPUT
    | TEST__POST_PROCESSING__YZ_FILTERING__INST_SEG__INPUT
    | TEST__POST_PROCESSING__YZ_FILTERING_SIZE__INST_SEG__INPUT
    | TEST__POST_PROCESSING__Z_FILTERING__INST_SEG__INPUT
    | TEST__POST_PROCESSING__Z_FILTERING_SIZE__INST_SEG__INPUT
    | TEST__MATCHING_STATS__INPUT
    | TEST__MATCHING_STATS_THS__INPUT
    | TEST__MATCHING_STATS_THS_COLORED_IMG__INPUT
    | TEST__POST_PROCESSING__VORONOI_TH__INPUT
    | TEST__DET_LOCAL_MAX_COORDS__INPUT
    | TEST__DET_MIN_TH_TO_BE_PEAK__INPUT
    | TEST__POST_PROCESSING__YZ_FILTERING__DET__INPUT
    | TEST__POST_PROCESSING__YZ_FILTERING_SIZE__DET__INPUT
    | TEST__POST_PROCESSING__Z_FILTERING__DET__INPUT
    | TEST__POST_PROCESSING__Z_FILTERING_SIZE__DET__INPUT
    | TEST__POST_PROCESSING__REMOVE_CLOSE_POINTS__DET__INPUT
    | TEST__POST_PROCESSING__REMOVE_CLOSE_POINTS_RADIUS__DET__INPUT
    | TEST__POST_PROCESSING__DET_WATERSHED__INPUT
    | TEST__POST_PROCESSING__DET_WATERSHED_FIRST_DILATION__INPUT
    | TEST__POST_PROCESSING__DET_WATERSHED_DONUTS_CLASSES__INPUT
    | TEST__POST_PROCESSING__DET_WATERSHED_DONUTS_PATCH__INPUT
    | TEST__POST_PROCESSING__DET_WATERSHED_DONUTS_NUCLEUS_DIAMETER__INPUT

  /** The inputs of the `AUGMENTOR` settings. */
  datatype AugmentorInput =
    | AUGMENTOR__ENABLE__INPUT
    | AUGMENTOR__RANDOM_ROT__INPUT
    | AUGMENTOR__RANDOM_ROT_RANGE__INPUT
    | AUGMENTOR__SHEAR__INPUT
    | AUGMENTOR__SHEAR_RANGE__INPUT
    | AUGMENTOR__ZOOM__INPUT
    | AUGMENTOR__ZOOM_RANGE__INPUT
    | AUGMENTOR__SHIFT__INPUT
    | AUGMENTOR__SHIFT_RANGE__INPUT
    | AUGMENTOR__ELASTIC__INPUT
    | AUGMENTOR__E_ALPHA__INPUT
    | AUGMENTOR__E_SIGMA__INPUT
    | AUGMENTOR__E_MODE__INPUT
    | AUGMENTOR__G_BLUR__INPUT
    | AUGMENTOR__G_SIGMA__INPUT
    | AUGMENTOR__MEDIAN_BLUR__INPUT
    | AUGMENTOR__MB_KERNEL__INPUT
    | AUGMENTOR__MOTION_BLUR__INPUT
    | AUGMENTOR__MOTB_K_RANGE__INPUT
    | AUGMENTOR__GAMMA_CONTRAST__INPUT
    | AUGMENTOR__GC_GAMMA__INPUT
    | AUGMENTOR__BRIGHTNESS__INPUT
    | AUGMENTOR__BRIGHTNESS_FACTOR__INPUT
    | AUGMENTOR__BRIGHTNESS_MODE__INPUT
    | AUGMENTOR__CONTRAST__INPUT
    | AUGMENTOR__CONTRAST_FACTOR__INPUT
    | AUGMENTOR__CONTRAST_MODE__INPUT
    | AUGMENTOR__BRIGHTNESS_EM__INPUT
    | AUGMENTOR__BRIGHTNESS_EM_FACTOR__INPUT
    | AUGMENTOR__BRIGHTNESS_EM_MODE__INPUT
    | AUGMENTOR__CONTRAST_EM__INPUT
    | AUGMENTOR__CONTRAST_EM_FACTOR__INPUT
    | AUGMENTOR__CONTRAST_EM_MODE__INPUT
    | AUGMENTOR__DROPOUT__INPUT
    | AUGMENTOR__DROP_RANGE__INPUT
    | AUGMENTOR__CUTOUT__INPUT
    | AUGMENTOR__COUT_NB_ITERATIONS__INPUT
    | AUGMENTOR__COUT_SIZE__INPUT
    | AUGMENTOR__COUT_CVAL__INPUT
    | AUGMENTOR__CUTBLUR__INPUT
    | AUGMENTOR__CBLUR_SIZE__INPUT
    | AUGMENTOR__CBLUR_DOWN_RANGE__INPUT
    | AUGMENTOR__CBLUR_INSIDE__INPUT
    | AUGMENTOR__CUTMIX__INPUT
    | AUGMENTOR__CMIX_SIZE__INPUT
    | AUGMENTOR__CUTNOISE__INPUT
    | AUGMENTOR__CNOISE_SCALE__INPUT
    | AUGMENTOR__CNOISE_NB_ITERATIONS__INPUT
    | AUGMENTOR__CNOISE_SIZE__INPUT
    | AUGMENTOR__MISALIGNMENT__INPUT
    | AUGMENTOR__MS_DISPLACEMENT__INPUT
    | AUGMENTOR__MS_ROTATE_RATIO__INPUT
    | AUGMENTOR__MISSING_SECTIONS__INPUT
    | AUGMENTOR__MISSP_ITERATIONS__INPUT
    | AUGMENTOR__GRIDMASK__INPUT
    | AUGMENTOR__GRID_RATIO__INPUT
    | AUGMENTOR__GRID_D_RANGE__INPUT
    | AUGMENTOR__GRID_ROTATE__INPUT
    | AUGMENTOR__GRID_INVERT__INPUT
    | AUGMENTOR__GAUSSIAN_NOISE__INPUT
    | AUGMENTOR__GAUSSIAN_NOISE_MEAN__INPUT
    | AUGMENTOR__GAUSSIAN_NOISE_VAR__INPUT
    | AUGMENTOR__GAUSSIAN_NOISE_USE_INPUT_IMG_MEAN_AND_VAR__INPUT
    | AUGMENTOR__SALT__INPUT
    | AUGMENTOR__SALT_AMOUNT__INPUT
    | AUGMENTOR__PEPPER__INPUT
    | AUGMENTOR__PEPPER_AMOUNT__INPUT
    | AUGMENTOR__SALT_AND_PEPPER__INPUT
    | AUGMENTOR__SALT_AND_PEPPER_AMOUNT__INPUT
    | AUGMENTOR__SALT_AND_PEPPER_PROP__INPUT

  /** The labels and frames of the data augmentation page. */
  datatype AugmentorLayout =
    | da_frame
    | da_random_rot_range_label
    | da_shear_range_label
    | da_zoom_range_label
    | da_shift_range_label
    | da_elastic_alpha_label
    | da_elastic_sigma_label
    | da_elastic_mode_label
    | da_gaussian_sigma_label
    | da_median_blur_k_size_label
    | da_motion_blur_k_size_label
    | da_gamma_contrast_range_label
    | da_brightness_factor_range_label
    | da_brightness_mode_label
    | da_contrast_factor_range_label
    | da_contrast_mode_label
    | da_brightness_em_factor_label
    | da_brightness_em_mode_label
    | da_contrast_em_factor_label
    | da_contrast_em_mode_label
    | da_dropout_range_label
    | da_cutout_number_iterations_label
    | da_cutout_size_label
    | da_cuout_cval_label
    | da_cutblur_size_range_label
    | da_cutblut_down_range_label
    | da_cutblur_inside_label
    | da_cutmix_size_range_label
    | da_cutnoise_scale_range_label
    | da_cutnoise_number_iter_label
    | da_cutnoise_size_range_label
    | da_misaligment_displacement_label
    | da_misaligment_rotate_ratio_label
    | da_missing_sections_iteration_range_label
    | da_grid_ratio_label
    | da_grid_d_range_label
    | da_grid_rotate_label
    | da_grid_invert_label
    | da_gaussian_noise_mean_label
    | da_gaussian_noise_var_label
    | da_gaussian_noise_use_input_img_label
    | da_salt_amount_label
    | da_pepper_amount_label
    | da_salt_pepper_amount_label
    | da_salt_pepper_prop_label

  /** The labels and frames of the instance segmentation settings. */
  datatype InstanceSegLayout =
    | inst_seg_metrics_label
    | inst_seg_metrics_frame
    | inst_seg_b_channel_th_label
    | inst_seg_c_channel_th_label
    | inst_seg_d_channel_th_label
    | inst_seg_p_channel_th_label
    | inst_seg_repare_large_blobs_label
    | inst_seg_remove_close_points_label
    | inst_seg_remove_close_points_radius_label
    | inst_seg_fore_mask_th_label
    | inst_seg_voronoi_label
    | inst_seg_fore_dil_label
    | inst_seg_fore_ero_label
    | inst_seg_small_obj_fil_before_size_label
    | inst_seg_yz_filtering_size_label
    | inst_seg_z_filtering_size_label
    | inst_seg_matching_stats_ths_label
    | inst_seg_matching_stats_colores_img_ths_label
    | inst_seg_voronoi_mask_th_label

  /** The labels and frames of the detection settings. */
  datatype DetectionLayout =
    | det_metrics_label
    | det_metrics_frame
    | det_min_th_to_be_peak_label
    | det_yz_filtering_size_label
    | det_z_filtering_size_label
    | det_remove_close_points_radius_label
    | det_watershed_first_dilation_label
    | det_watershed_donuts_classes_label
    | det_watershed_donuts_patch_label
    | det_watershed_donuts_nucleus_diam_label
    | det_data_watetshed_check_label

  /** The the other labels, frames, buttons and tabs. */
  datatype GeneralLayout =
    | checkpoint_file_path_browse_bn
    | checkpoint_file_path_browse_label
    | checkpoint_loading_opt_label
    | checkpoint_loading_opt_frame
    | train_tab_widget
    | percentage_validation_label
    | cross_validation_nfolds_label
    | cross_validation_fold_label
    | use_val_as_test
    | val_data_input_browse_bn
    | validation_data_gt_label
    | val_data_gt_input_browse_bn
    | val_in_memory_label
    | test_data_label
    | test_data_input_browse_bn
    | test_exists_gt_label
    | test_data_gt_label
    | test_data_gt_input_browse_bn
    | test_data_in_memory_label
    | random_val_label
    | validation_overlap_label
    | validation_padding_label
    | adamw_weight_decay_label
    | profiler_batch_range_label
    | custom_mean_label
    | custom_std_label
    | extract_random_patch_frame_label
    | extract_random_patch_frame
    | lr_schel_warmupcosine_epochs_label
    | lr_schel_min_lr_label
    | lr_schel_reduce_on_plat_patience_label
    | lr_schel_reduce_on_plat_factor_label
    | ssl_resizing_factor_label
    | ssl_noise_label
    | test_tab_widget
    | sem_seg_yz_filtering_size_label
    | sem_seg_z_filtering_size_label
    | unet_model_like_frame
    | unet_model_like_label
    | sr_unet_like_heading
    | sr_unet_like_frame
    | transformers_frame
    | transformers_label
    | unetr_vit_hidden_multiple_label
    | unetr_num_filters_label
    | unetr_dec_act_label

  /** Every text the table allows a controller to show, in order of first use. */
  datatype Choice =
    | Yes
    | ExtractFromTrainSplitTraining
    | ExtractFromTrainCrossValidation
    | NotExtractedFromTrain
    | No
    | ADAMW
    | Custom
    | Warmupcosine
    | Reduceonplateau
    | BinaryMaskContours
    | BinaryMaskCentralPoints
    | BinaryMaskDistanceMap
    | BinaryMaskContoursForegroundMask
    | BinaryMaskContoursDistanceMap
    | BinaryMaskContoursDistanceMapWithBackground
    | BinaryMaskDistanceMapWithBackground
    | Manual
    | DistanceMapWithBackground
    | Auto
    | UNet
    | ResidualUNet
    | ResUNetPlusPlus
    | AttentionUNet
    | MultiResUnet
    | SEUnet
    | MAE
    | UNETR
    | ViT

  /** The text a choice stands for, as the table spells it. */
  function Spelling(c: Choice): string {
    match c
    case Yes => "Yes"
    case ExtractFromTrainSplitTraining => "Extract from train (split training)"
    case ExtractFromTrainCrossValidation => "Extract from train (cross validation)"
    case NotExtractedFromTrain => "Not extracted from train (path needed)"
    case No => "No"
    case ADAMW => "ADAMW"
    case Custom => "custom"
    case Warmupcosine => "warmupcosine"
    case Reduceonplateau => "reduceonplateau"
    case BinaryMaskContours => "Binary mask + Contours"
    case BinaryMaskCentralPoints => "Binary mask + Central points"
    case BinaryMaskDistanceMap => "Binary mask + Distance map"
    case BinaryMaskContoursForegroundMask => "Binary mask + Contours + Foreground mask"
    case BinaryMaskContoursDistanceMap => "Binary mask + Contours + Distance map"
    case BinaryMaskContoursDistanceMapWithBackground => "Binary mask + Contours + Distance map with background (experimental)"
    case BinaryMaskDistanceMapWithBackground => "Binary mask + Distance map with background (experimental)"
    case Manual => "manual"
    case DistanceMapWithBackground => "Distance map with background (experimental)"
    case Auto => "auto"
    case UNet => "U-Net"
    case ResidualUNet => "Residual U-Net"
    case ResUNetPlusPlus => "ResUNet++"
    case AttentionUNet => "Attention U-Net"
    case MultiResUnet => "MultiResUnet"
    case SEUnet => "SEUnet"
    case MAE => "MAE"
    case UNETR => "UNETR"
    case ViT => "ViT"
  }

  /** The texts a list of choices stands for. */
  function Spelled(cs: seq<Choice>): seq<string> {
    seq(|cs|, i requires 0 <= i < |cs| => Spelling(cs[i]))
  }

  /** One `"controller": [allowed texts]` pair of an entry. */
  datatype Requirement = Requirement(controller: Widget, allowed: seq<Choice>)

  /** The entry of widget `w`, or `None` when the table does not declare it. The
      table is a dictionary display: a key written twice keeps the value of its
      last occurrence, and the entries below are those values. They are split by
      the group of the key and keep the order of the table within each group. */
  function ConditionOf(w: Widget): Option<seq<Requirement>> {
    match w
    case Paths(x) => PathsCondition(x)
    case Problem(x) => ProblemCondition(x)
    case Data(x) => DataCondition(x)
    case Train(x) => TrainCondition(x)
    case Model(x) => ModelCondition(x)
    case Test(x) => TestCondition(x)
    case Augmentor(x) => AugmentorCondition(x)
    case AugmentorView(x) => AugmentorViewCondition(x)
    case InstanceSegView(x) => InstanceSegViewCondition(x)
    case DetectionView(x) => DetectionViewCondition(x)
    case GeneralView(x) => GeneralViewCondition(x)
  }

  /** The entries whose key is one of the inputs of the `PATHS` settings. */
  function PathsCondition(w: PathsInput): Option<seq<Requirement>> {
    match w
    // line 16
    case PATHS__CHECKPOINT_FILE__INPUT => Some([Requirement(Model(MODEL__LOAD_CHECKPOINT__INPUT), [Yes])])
  }

  /** The entries whose key is one of the inputs of the `PROBLEM` settings. */
  function ProblemCondition(w: ProblemInput): Option<seq<Requirement>> {
    match w
    // line 1109
    case PROBLEM__SELF_SUPERVISED__RESIZING_FACTOR__INPUT => Some([Requirement(Problem(PROBLEM__SELF_SUPERVISED__PRETEXT_TASK__INPUT), [Yes])])
    // line 1203
    case PROBLEM__INSTANCE_SEG__DATA_MW_TH_BINARY_MASK__INPUT => Some([Requirement(Problem(PROBLEM__INSTANCE_SEG__DATA_CHANNELS__INPUT), [BinaryMaskContours, BinaryMaskCentralPoints, BinaryMaskDistanceMap, BinaryMaskContoursForegroundMask, BinaryMaskContoursDistanceMap, BinaryMaskContoursDistanceMapWithBackground, BinaryMaskDistanceMapWithBackground]), Requirement(Problem(PROBLEM__INSTANCE_SEG__DATA_MW_TH_TYPE__INPUT), [Manual])])
    // line 1234
    case PROBLEM__INSTANCE_SEG__DATA_MW_TH_CONTOUR__INPUT => Some([Requirement(Problem(PROBLEM__INSTANCE_SEG__DATA_CHANNELS__INPUT), [BinaryMaskContours, BinaryMaskContoursForegroundMask, BinaryMaskContoursDistanceMap, BinaryMaskContoursDistanceMapWithBackground]), Requirement(Problem(PROBLEM__INSTANCE_SEG__DATA_MW_TH_TYPE__INPUT), [Manual])])
    // line 1263
    case PROBLEM__INSTANCE_SEG__DATA_MW_TH_DISTANCE__INPUT => Some([Requirement(Problem(PROBLEM__INSTANCE_SEG__DATA_CHANNELS__INPUT), [BinaryMaskDistanceMap, BinaryMaskContoursDistanceMap, BinaryMaskContoursDistanceMapWithBackground, BinaryMaskDistanceMapWithBackground, DistanceMapWithBackground]), Requirement(Problem(PROBLEM__INSTANCE_SEG__DATA_MW_TH_TYPE__INPUT), [Manual, Auto])])
    // line 1419; replaces the entry at line 1279
    case PROBLEM__INSTANCE_SEG__DISTANCE_CHANNEL_MASK__INPUT => Some([Requirement(Problem(PROBLEM__INSTANCE_SEG__DATA_CHANNELS__INPUT), [BinaryMaskDistanceMap, BinaryMaskContoursDistanceMap, BinaryMaskContoursDistanceMapWithBackground, BinaryMaskDistanceMapWithBackground])])
    // line 1306
    case PROBLEM__INSTANCE_SEG__DATA_MW_TH_POINTS__INPUT => Some([Requirement(Problem(PROBLEM__INSTANCE_SEG__DATA_CHANNELS__INPUT), [BinaryMaskCentralPoints]), Requirement(Problem(PROBLEM__INSTANCE_SEG__DATA_MW_TH_TYPE__INPUT), [Manual])])
    // line 1376
    case PROBLEM__INSTANCE_SEG__DATA_MW_TH_FOREGROUND__INPUT => Some([Requirement(Problem(PROBLEM__INSTANCE_SEG__DATA_CHANNELS__INPUT), [BinaryMaskContours, BinaryMaskCentralPoints, BinaryMaskDistanceMap, BinaryMaskContoursForegroundMask, BinaryMaskContoursDistanceMap, BinaryMaskContoursDistanceMapWithBackground, BinaryMaskDistanceMapWithBackground]), Requirement(Problem(PROBLEM__INSTANCE_SEG__DATA_MW_TH_TYPE__INPUT), [Manual])])
    // line 1409
    case PROBLEM__INSTANCE_SEG__DISTANCE_CHANNEL_MASK__LABEL => Some([Requirement(Problem(PROBLEM__INSTANCE_SEG__DATA_CHANNELS__INPUT), [BinaryMaskDistanceMap, BinaryMaskContoursDistanceMap, BinaryMaskContoursDistanceMapWithBackground, BinaryMaskDistanceMapWithBackground])])
    // line 1429
    case PROBLEM__INSTANCE_SEG__DATA_CONTOUR_MODE__LABEL => Some([Requirement(Problem(PROBLEM__INSTANCE_SEG__DATA_CHANNELS__INPUT), [BinaryMaskContours, BinaryMaskContoursForegroundMask, BinaryMaskContoursDistanceMap, BinaryMaskContoursDistanceMapWithBackground])])
    // line 1439
    case PROBLEM__INSTANCE_SEG__DATA_CONTOUR_MODE__INPUT => Some([Requirement(Problem(PROBLEM__INSTANCE_SEG__DATA_CHANNELS__INPUT), [BinaryMaskContours, BinaryMaskContoursForegroundMask, BinaryMaskContoursDistanceMap, BinaryMaskContoursDistanceMapWithBackground])])
    // line 1456
    case PROBLEM__INSTANCE_SEG__FORE_EROSION_RADIUS__INPUT => Some([Requirement(Problem(PROBLEM__INSTANCE_SEG__ERODE_AND_DILATE_FOREGROUND__INPUT), [Yes])])
    // line 1470
    case PROBLEM__INSTANCE_SEG__FORE_DILATION_RADIUS__INPUT => Some([Requirement(Problem(PROBLEM__INSTANCE_SEG__ERODE_AND_DILATE_FOREGROUND__INPUT), [Yes])])
    // line 1484
    case PROBLEM__INSTANCE_SEG__DATA_REMOVE_SMALL_OBJ_BEFORE__INPUT => Some([Requirement(Problem(PROBLEM__INSTANCE_SEG__DATA_REMOVE_BEFORE_MW__INPUT), [Yes])])
    // line 1694
    case PROBLEM__DETECTION__DATA_CHECK_MW__INPUT => Some([Requirement(Test(TEST__POST_PROCESSING__DET_WATERSHED__INPUT), [Yes])])
    case _ => None
  }

  /** The entries whose key is one of the inputs of the `DATA` settings. */
  function DataCondition(w: DataInput): Option<seq<Requirement>> {
    match w
    // line 65
    case DATA__VAL__SPLIT_TRAIN__INPUT => Some([Requirement(Data(DATA__VAL__TYPE__INPUT), [ExtractFromTrainSplitTraining])])
    // line 79
    case DATA__VAL__CROSS_VAL_NFOLD__INPUT => Some([Requirement(Data(DATA__VAL__TYPE__INPUT), [ExtractFromTrainCrossValidation])])
    // line 93
    case DATA__VAL__CROSS_VAL_FOLD__INPUT => Some([Requirement(Data(DATA__VAL__TYPE__INPUT), [ExtractFromTrainCrossValidation])])
    // line 107
    case DATA__TEST__USE_VAL_AS_TEST__INPUT => Some([Requirement(Data(DATA__VAL__TYPE__INPUT), [ExtractFromTrainCrossValidation])])
    // line 114
    case DATA__VAL__PATH__LABEL => Some([Requirement(Data(DATA__VAL__TYPE__INPUT), [NotExtractedFromTrain])])
    // line 121
    case DATA__VAL__PATH__INPUT => Some([Requirement(Data(DATA__VAL__TYPE__INPUT), [NotExtractedFromTrain])])
    // line 142
    case DATA__VAL__GT_PATH__INPUT => Some([Requirement(Data(DATA__VAL__TYPE__INPUT), [NotExtractedFromTrain])])
    // line 163
    case DATA__VAL__IN_MEMORY__INPUT => Some([Requirement(Data(DATA__VAL__TYPE__INPUT), [NotExtractedFromTrain])])
    // line 182
    case DATA__TEST__PATH__INPUT => Some([Requirement(Data(DATA__VAL__TYPE__INPUT), [NotExtractedFromTrain, ExtractFromTrainSplitTraining]), Requirement(Data(DATA__TEST__USE_VAL_AS_TEST__INPUT), [No])])
    // line 218
    case DATA__TEST__LOAD_GT__INPUT => Some([Requirement(Data(DATA__VAL__TYPE__INPUT), [NotExtractedFromTrain, ExtractFromTrainSplitTraining]), Requirement(Data(DATA__TEST__USE_VAL_AS_TEST__INPUT), [No])])
    // line 246
    case DATA__TEST__GT_PATH__INPUT => Some([Requirement(Data(DATA__VAL__TYPE__INPUT), [NotExtractedFromTrain, ExtractFromTrainSplitTraining]), Requirement(Data(DATA__TEST__USE_VAL_AS_TEST__INPUT), [No]), Requirement(Data(DATA__TEST__LOAD_GT__INPUT), [Yes])])
    // line 290
    case DATA__TEST__IN_MEMORY__INPUT => Some([Requirement(Data(DATA__VAL__TYPE__INPUT), [NotExtractedFromTrain, ExtractFromTrainSplitTraining]), Requirement(Data(DATA__TEST__USE_VAL_AS_TEST__INPUT), [No])])
    // line 310
    case DATA__VAL__RANDOM__INPUT => Some([Requirement(Data(DATA__VAL__TYPE__INPUT), [ExtractFromTrainCrossValidation, ExtractFromTrainSplitTraining])])
    // line 330
    case DATA__VAL__OVERLAP__INPUT => Some([Requirement(Data(DATA__VAL__TYPE__INPUT), [NotExtractedFromTrain])])
    // line 344
    case DATA__VAL__PADDING__INPUT => Some([Requirement(Data(DATA__VAL__TYPE__INPUT), [ExtractFromTrainSplitTraining])])
    // line 386
    case DATA__NORMALIZATION__CUSTOM_MEAN__INPUT => Some([Requirement(Data(DATA__NORMALIZATION__TYPE__INPUT), [Custom])])
    // line 400
    case DATA__NORMALIZATION__CUSTOM_STD__INPUT => Some([Requirement(Data(DATA__NORMALIZATION__TYPE__INPUT), [Custom])])
    case _ => None
  }

  /** The entries whose key is one of the inputs of the `TRAIN` settings. */
  function TrainCondition(w: TrainInput): Option<seq<Requirement>> {
    match w
    // line 351
    case TRAIN__W_DECAY__INPUT => Some([Requirement(Train(TRAIN__OPTIMIZER__INPUT), [ADAMW])])
    // line 372
    case TRAIN__PROFILER_BATCH_RANGE__INPUT => Some([Requirement(Train(TRAIN__PROFILER__INPUT), [Yes])])
    // line 428
    case TRAIN__LR_SCHEDULER__WARMUP_COSINE_DECAY_EPOCHS__INPUT => Some([Requirement(Train(TRAIN__LR_SCHEDULER__NAME__INPUT), [Warmupcosine])])
    // line 443
    case TRAIN__LR_SCHEDULER__MIN_LR__INPUT => Some([Requirement(Train(TRAIN__LR_SCHEDULER__NAME__INPUT), [Warmupcosine, Reduceonplateau])])
    // line 458
    case TRAIN__LR_SCHEDULER__REDUCEONPLATEAU_PATIENCE__INPUT => Some([Requirement(Train(TRAIN__LR_SCHEDULER__NAME__INPUT), [Reduceonplateau])])
    // line 472
    case TRAIN__LR_SCHEDULER__REDUCEONPLATEAU_FACTOR__INPUT => Some([Requirement(Train(TRAIN__LR_SCHEDULER__NAME__INPUT), [Reduceonplateau])])
    case _ => None
  }

  /** The entries whose key is one of the inputs of the `MODEL` settings. */
  function ModelCondition(w: ModelInput): Option<seq<Requirement>> {
    match w
    // line 1776
    case MODEL__UNETR_VIT_HIDD_MULT__INPUT => Some([Requirement(Model(MODEL__ARCHITECTURE__INPUT), [UNETR])])
    // line 1790
    case MODEL__UNETR_VIT_NUM_FILTERS__INPUT => Some([Requirement(Model(MODEL__ARCHITECTURE__INPUT), [UNETR])])
    // line 1804
    case MODEL__UNETR_DEC_ACTIVATION__INPUT => Some([Requirement(Model(MODEL__ARCHITECTURE__INPUT), [UNETR])])
    // line 1860; replaces the entry at line 1811
    case MODEL__MAE_DEC_HIDDEN_SIZE__INPUT => Some([Requirement(Model(MODEL__ARCHITECTURE__INPUT), [MAE])])
    // line 1818
    case MODEL__MAE_DEC_HIDDEN_SIZE__LABEL => Some([Requirement(Model(MODEL__ARCHITECTURE__INPUT), [MAE])])
    // line 1825
    case MODEL__MAE_DEC_NUM_LAYERS__INPUT => Some([Requirement(Model(MODEL__ARCHITECTURE__INPUT), [MAE])])
    // line 1832
    case MODEL__MAE_DEC_NUM_LAYERS__LABEL => Some([Requirement(Model(MODEL__ARCHITECTURE__INPUT), [MAE])])
    // line 1839
    case MODEL__MAE_DEC_NUM_HEADS__INPUT => Some([Requirement(Model(MODEL__ARCHITECTURE__INPUT), [MAE])])
    // line 1846
    case MODEL__MAE_DEC_NUM_HEADS__LABEL => Some([Requirement(Model(MODEL__ARCHITECTURE__INPUT), [MAE])])
    // line 1853
    case MODEL__MAE_DEC_MLP_DIMS__INPUT => Some([Requirement(Model(MODEL__ARCHITECTURE__INPUT), [MAE])])
    // line 1867
    case MODEL__MAE_DEC_MLP_DIMS__LABEL => Some([Requirement(Model(MODEL__ARCHITECTURE__INPUT), [MAE])])
    case _ => None
  }

  /** The entries whose key is one of the inputs of the `TEST` settings. */
  function TestCondition(w: TestInput): Option<seq<Requirement>> {
    match w
    // line 1165
    case TEST__POST_PROCESSING__YZ_FILTERING_SIZE__SEM_SEG__INPUT => Some([Requirement(Test(TEST__POST_PROCESSING__YZ_FILTERING__SEM_SEG__INPUT), [Yes])])
    // line 1179
    case TEST__POST_PROCESSING__Z_FILTERING_SIZE__SEM_SEG__INPUT => Some([Requirement(Test(TEST__POST_PROCESSING__Z_FILTERING__SEM_SEG__INPUT), [Yes])])
    // line 1324
    case TEST__POST_PROCESSING__REPARE_LARGE_BLOBS_SIZE__INPUT => Some([Requirement(Problem(PROBLEM__INSTANCE_SEG__DATA_CHANNELS__INPUT), [BinaryMaskCentralPoints])])
    // line 1338
    case TEST__POST_PROCESSING__REMOVE_CLOSE_POINTS__INST_SEG__INPUT => Some([Requirement(Problem(PROBLEM__INSTANCE_SEG__DATA_CHANNELS__INPUT), [BinaryMaskCentralPoints])])
    // line 1526; replaces the entry at line 1352
    case TEST__POST_PROCESSING__REMOVE_CLOSE_POINTS_RADIUS__INST_SEG__INPUT => Some([Requirement(Test(TEST__POST_PROCESSING__REMOVE_CLOSE_POINTS__INST_SEG__INPUT), [Yes])])
    // line 1401
    case TEST__POST_PROCESSING__VORONOI_ON_MASK__INPUT => Some([Requirement(Problem(PROBLEM__INSTANCE_SEG__DATA_CHANNELS__INPUT), [BinaryMaskContours, BinaryMaskContoursForegroundMask])])
    // line 1498
    case TEST__POST_PROCESSING__YZ_FILTERING_SIZE__INST_SEG__INPUT => Some([Requirement(Test(TEST__POST_PROCESSING__YZ_FILTERING__INST_SEG__INPUT), [Yes])])
    // line 1512
    case TEST__POST_PROCESSING__Z_FILTERING_SIZE__INST_SEG__INPUT => Some([Requirement(Test(TEST__POST_PROCESSING__Z_FILTERING__INST_SEG__INPUT), [Yes])])
    // line 1540
    case TEST__MATCHING_STATS_THS__INPUT => Some([Requirement(Test(TEST__MATCHING_STATS__INPUT), [Yes])])
    // line 1554
    case TEST__MATCHING_STATS_THS_COLORED_IMG__INPUT => Some([Requirement(Test(TEST__MATCHING_STATS__INPUT), [Yes])])
    // line 1568
    case TEST__POST_PROCESSING__VORONOI_TH__INPUT => Some([Requirement(Test(TEST__POST_PROCESSING__VORONOI_ON_MASK__INPUT), [Yes])])
    // line 1582
    case TEST__DET_MIN_TH_TO_BE_PEAK__INPUT => Some([Requirement(Test(TEST__DET_LOCAL_MAX_COORDS__INPUT), [Yes])])
    // line 1596
    case TEST__POST_PROCESSING__YZ_FILTERING_SIZE__DET__INPUT => Some([Requirement(Test(TEST__POST_PROCESSING__YZ_FILTERING__DET__INPUT), [Yes])])
    // line 1610
    case TEST__POST_PROCESSING__Z_FILTERING_SIZE__DET__INPUT => Some([Requirement(Test(TEST__POST_PROCESSING__Z_FILTERING__DET__INPUT), [Yes])])
    // line 1624
    case TEST__POST_PROCESSING__REMOVE_CLOSE_POINTS_RADIUS__DET__INPUT => Some([Requirement(Test(TEST__POST_PROCESSING__REMOVE_CLOSE_POINTS__DET__INPUT), [Yes])])
    // line 1638
    case TEST__POST_PROCESSING__DET_WATERSHED_FIRST_DILATION__INPUT => Some([Requirement(Test(TEST__POST_PROCESSING__DET_WATERSHED__INPUT), [Yes])])
    // line 1652
    case TEST__POST_PROCESSING__DET_WATERSHED_DONUTS_CLASSES__INPUT => Some([Requirement(Test(TEST__POST_PROCESSING__DET_WATERSHED__INPUT), [Yes])])
    // line 1666
    case TEST__POST_PROCESSING__DET_WATERSHED_DONUTS_PATCH__INPUT => Some([Requirement(Test(TEST__POST_PROCESSING__DET_WATERSHED__INPUT), [Yes])])
    // line 1680
    case TEST__POST_PROCESSING__DET_WATERSHED_DONUTS_NUCLEUS_DIAMETER__INPUT => Some([Requirement(Test(TEST__POST_PROCESSING__DET_WATERSHED__INPUT), [Yes])])
    case _ => None
  }

  /** The entries whose key is one of the inputs of the `AUGMENTOR` settings. */
  function AugmentorCondition(w: AugmentorInput): Option<seq<Requirement>> {
    match w
    // line 493
    case AUGMENTOR__RANDOM_ROT_RANGE__INPUT => Some([Requirement(Augmentor(AUGMENTOR__RANDOM_ROT__INPUT), [Yes])])
    // line 507
    case AUGMENTOR__SHEAR_RANGE__INPUT => Some([Requirement(Augmentor(AUGMENTOR__SHEAR__INPUT), [Yes])])
    // line 521
    case AUGMENTOR__ZOOM_RANGE__INPUT => Some([Requirement(Augmentor(AUGMENTOR__ZOOM__INPUT), [Yes])])
    // line 535
    case AUGMENTOR__SHIFT_RANGE__INPUT => Some([Requirement(Augmentor(AUGMENTOR__SHIFT__INPUT), [Yes])])
    // line 549
    case AUGMENTOR__E_ALPHA__INPUT => Some([Requirement(Augmentor(AUGMENTOR__ELASTIC__INPUT), [Yes])])
    // line 563
    case AUGMENTOR__E_SIGMA__INPUT => Some([Requirement(Augmentor(AUGMENTOR__ELASTIC__INPUT), [Yes])])
    // line 577
    case AUGMENTOR__E_MODE__INPUT => Some([Requirement(Augmentor(AUGMENTOR__ELASTIC__INPUT), [Yes])])
    // line 591
    case AUGMENTOR__G_SIGMA__INPUT => Some([Requirement(Augmentor(AUGMENTOR__G_BLUR__INPUT), [Yes])])
    // line 605
    case AUGMENTOR__MB_KERNEL__INPUT => Some([Requirement(Augmentor(AUGMENTOR__MEDIAN_BLUR__INPUT), [Yes])])
    // line 619
    case AUGMENTOR__MOTB_K_RANGE__INPUT => Some([Requirement(Augmentor(AUGMENTOR__MOTION_BLUR__INPUT), [Yes])])
    // line 633
    case AUGMENTOR__GC_GAMMA__INPUT => Some([Requirement(Augmentor(AUGMENTOR__GAMMA_CONTRAST__INPUT), [Yes])])
    // line 647
    case AUGMENTOR__BRIGHTNESS_FACTOR__INPUT => Some([Requirement(Augmentor(AUGMENTOR__BRIGHTNESS__INPUT), [Yes])])
    // line 661
    case AUGMENTOR__BRIGHTNESS_MODE__INPUT => Some([Requirement(Augmentor(AUGMENTOR__BRIGHTNESS__INPUT), [Yes])])
    // line 675
    case AUGMENTOR__CONTRAST_FACTOR__INPUT => Some([Requirement(Augmentor(AUGMENTOR__CONTRAST__INPUT), [Yes])])
    // line 689
    case AUGMENTOR__CONTRAST_MODE__INPUT => Some([Requirement(Augmentor(AUGMENTOR__CONTRAST__INPUT), [Yes])])
    // line 703
    case AUGMENTOR__BRIGHTNESS_EM_FACTOR__INPUT => Some([Requirement(Augmentor(AUGMENTOR__BRIGHTNESS_EM__INPUT), [Yes])])
    // line 717
    case AUGMENTOR__BRIGHTNESS_EM_MODE__INPUT => Some([Requirement(Augmentor(AUGMENTOR__BRIGHTNESS_EM__INPUT), [Yes])])
    // line 731
    case AUGMENTOR__CONTRAST_EM_FACTOR__INPUT => Some([Requirement(Augmentor(AUGMENTOR__CONTRAST_EM__INPUT), [Yes])])
    // line 745
    case AUGMENTOR__CONTRAST_EM_MODE__INPUT => Some([Requirement(Augmentor(AUGMENTOR__CONTRAST_EM__INPUT), [Yes])])
    // line 759
    case AUGMENTOR__DROP_RANGE__INPUT => Some([Requirement(Augmentor(AUGMENTOR__DROPOUT__INPUT), [Yes])])
    // line 773
    case AUGMENTOR__COUT_NB_ITERATIONS__INPUT => Some([Requirement(Augmentor(AUGMENTOR__CUTOUT__INPUT), [Yes])])
    // line 787
    case AUGMENTOR__COUT_SIZE__INPUT => Some([Requirement(Augmentor(AUGMENTOR__CUTOUT__INPUT), [Yes])])
    // line 801
    case AUGMENTOR__COUT_CVAL__INPUT => Some([Requirement(Augmentor(AUGMENTOR__CUTOUT__INPUT), [Yes])])
    // line 815
    case AUGMENTOR__CBLUR_SIZE__INPUT => Some([Requirement(Augmentor(AUGMENTOR__CUTBLUR__INPUT), [Yes])])
    // line 829
    case AUGMENTOR__CBLUR_DOWN_RANGE__INPUT => Some([Requirement(Augmentor(AUGMENTOR__CUTBLUR__INPUT), [Yes])])
    // line 843
    case AUGMENTOR__CBLUR_INSIDE__INPUT => Some([Requirement(Augmentor(AUGMENTOR__CUTBLUR__INPUT), [Yes])])
    // line 857
    case AUGMENTOR__CMIX_SIZE__INPUT => Some([Requirement(Augmentor(AUGMENTOR__CUTMIX__INPUT), [Yes])])
    // line 871
    case AUGMENTOR__CNOISE_SCALE__INPUT => Some([Requirement(Augmentor(AUGMENTOR__CUTNOISE__INPUT), [Yes])])
    // line 885
    case AUGMENTOR__CNOISE_NB_ITERATIONS__INPUT => Some([Requirement(Augmentor(AUGMENTOR__CUTNOISE__INPUT), [Yes])])
    // line 899
    case AUGMENTOR__CNOISE_SIZE__INPUT => Some([Requirement(Augmentor(AUGMENTOR__CUTNOISE__INPUT), [Yes])])
    // line 913
    case AUGMENTOR__MS_DISPLACEMENT__INPUT => Some([Requirement(Augmentor(AUGMENTOR__MISALIGNMENT__INPUT), [Yes])])
    // line 927
    case AUGMENTOR__MS_ROTATE_RATIO__INPUT => Some([Requirement(Augmentor(AUGMENTOR__MISALIGNMENT__INPUT), [Yes])])
    // line 941
    case AUGMENTOR__MISSP_ITERATIONS__INPUT => Some([Requirement(Augmentor(AUGMENTOR__MISSING_SECTIONS__INPUT), [Yes])])
    // line 955
    case AUGMENTOR__GRID_RATIO__INPUT => Some([Requirement(Augmentor(AUGMENTOR__GRIDMASK__INPUT), [Yes])])
    // line 969
    case AUGMENTOR__GRID_D_RANGE__INPUT => Some([Requirement(Augmentor(AUGMENTOR__GRIDMASK__INPUT), [Yes])])
    // line 983
    case AUGMENTOR__GRID_ROTATE__INPUT => Some([Requirement(Augmentor(AUGMENTOR__GRIDMASK__INPUT), [Yes])])
    // line 997
    case AUGMENTOR__GRID_INVERT__INPUT => Some([Requirement(Augmentor(AUGMENTOR__GRIDMASK__INPUT), [Yes])])
    // line 1011
    case AUGMENTOR__GAUSSIAN_NOISE_MEAN__INPUT => Some([Requirement(Augmentor(AUGMENTOR__GAUSSIAN_NOISE__INPUT), [Yes])])
    // line 1025
    case AUGMENTOR__GAUSSIAN_NOISE_VAR__INPUT => Some([Requirement(Augmentor(AUGMENTOR__GAUSSIAN_NOISE__INPUT), [Yes])])
    // line 1039
    case AUGMENTOR__GAUSSIAN_NOISE_USE_INPUT_IMG_MEAN_AND_VAR__INPUT => Some([Requirement(Augmentor(AUGMENTOR__GAUSSIAN_NOISE__INPUT), [Yes])])
    // line 1053
    case AUGMENTOR__SALT_AMOUNT__INPUT => Some([Requirement(Augmentor(AUGMENTOR__SALT__INPUT), [Yes])])
    // line 1067
    case AUGMENTOR__PEPPER_AMOUNT__INPUT => Some([Requirement(Augmentor(AUGMENTOR__PEPPER__INPUT), [Yes])])
    // line 1081
    case AUGMENTOR__SALT_AND_PEPPER_AMOUNT__INPUT => Some([Requirement(Augmentor(AUGMENTOR__SALT_AND_PEPPER__INPUT), [Yes])])
    // line 1095
    case AUGMENTOR__SALT_AND_PEPPER_PROP__INPUT => Some([Requirement(Augmentor(AUGMENTOR__SALT_AND_PEPPER__INPUT), [Yes])])
    case _ => None
  }

  /** The entries whose key is one of the labels and frames of the data augmentation page. */
  function AugmentorViewCondition(w: AugmentorLayout): Option<seq<Requirement>> {
    match w
    // line 479
    case da_frame => Some([Requirement(Augmentor(AUGMENTOR__ENABLE__INPUT), [Yes])])
    // line 486
    case da_random_rot_range_label => Some([Requirement(Augmentor(AUGMENTOR__RANDOM_ROT__INPUT), [Yes])])
    // line 500
    case da_shear_range_label => Some([Requirement(Augmentor(AUGMENTOR__SHEAR__INPUT), [Yes])])
    // line 514
    case da_zoom_range_label => Some([Requirement(Augmentor(AUGMENTOR__ZOOM__INPUT), [Yes])])
    // line 528
    case da_shift_range_label => Some([Requirement(Augmentor(AUGMENTOR__SHIFT__INPUT), [Yes])])
    // line 542
    case da_elastic_alpha_label => Some([Requirement(Augmentor(AUGMENTOR__ELASTIC__INPUT), [Yes])])
    // line 556
    case da_elastic_sigma_label => Some([Requirement(Augmentor(AUGMENTOR__ELASTIC__INPUT), [Yes])])
    // line 570
    case da_elastic_mode_label => Some([Requirement(Augmentor(AUGMENTOR__ELASTIC__INPUT), [Yes])])
    // line 584
    case da_gaussian_sigma_label => Some([Requirement(Augmentor(AUGMENTOR__G_BLUR__INPUT), [Yes])])
    // line 598
    case da_median_blur_k_size_label => Some([Requirement(Augmentor(AUGMENTOR__MEDIAN_BLUR__INPUT), [Yes])])
    // line 612
    case da_motion_blur_k_size_label => Some([Requirement(Augmentor(AUGMENTOR__MOTION_BLUR__INPUT), [Yes])])
    // line 626
    case da_gamma_contrast_range_label => Some([Requirement(Augmentor(AUGMENTOR__GAMMA_CONTRAST__INPUT), [Yes])])
    // line 640
    case da_brightness_factor_range_label => Some([Requirement(Augmentor(AUGMENTOR__BRIGHTNESS__INPUT), [Yes])])
    // line 654
    case da_brightness_mode_label => Some([Requirement(Augmentor(AUGMENTOR__BRIGHTNESS__INPUT), [Yes])])
    // line 668
    case da_contrast_factor_range_label => Some([Requirement(Augmentor(AUGMENTOR__CONTRAST__INPUT), [Yes])])
    // line 682
    case da_contrast_mode_label => Some([Requirement(Augmentor(AUGMENTOR__CONTRAST__INPUT), [Yes])])
    // line 696
    case da_brightness_em_factor_label => Some([Requirement(Augmentor(AUGMENTOR__BRIGHTNESS_EM__INPUT), [Yes])])
    // line 710
    case da_brightness_em_mode_label => Some([Requirement(Augmentor(AUGMENTOR__BRIGHTNESS_EM__INPUT), [Yes])])
    // line 724
    case da_contrast_em_factor_label => Some([Requirement(Augmentor(AUGMENTOR__CONTRAST_EM__INPUT), [Yes])])
    // line 738
    case da_contrast_em_mode_label => Some([Requirement(Augmentor(AUGMENTOR__CONTRAST_EM__INPUT), [Yes])])
    // line 752
    case da_dropout_range_label => Some([Requirement(Augmentor(AUGMENTOR__DROPOUT__INPUT), [Yes])])
    // line 766
    case da_cutout_number_iterations_label => Some([Requirement(Augmentor(AUGMENTOR__CUTOUT__INPUT), [Yes])])
    // line 780
    case da_cutout_size_label => Some([Requirement(Augmentor(AUGMENTOR__CUTOUT__INPUT), [Yes])])
    // line 794
    case da_cuout_cval_label => Some([Requirement(Augmentor(AUGMENTOR__CUTOUT__INPUT), [Yes])])
    // line 808
    case da_cutblur_size_range_label => Some([Requirement(Augmentor(AUGMENTOR__CUTBLUR__INPUT), [Yes])])
    // line 822
    case da_cutblut_down_range_label => Some([Requirement(Augmentor(AUGMENTOR__CUTBLUR__INPUT), [Yes])])
    // line 836
    case da_cutblur_inside_label => Some([Requirement(Augmentor(AUGMENTOR__CUTBLUR__INPUT), [Yes])])
    // line 850
    case da_cutmix_size_range_label => Some([Requirement(Augmentor(AUGMENTOR__CUTMIX__INPUT), [Yes])])
    // line 864
    case da_cutnoise_scale_range_label => Some([Requirement(Augmentor(AUGMENTOR__CUTNOISE__INPUT), [Yes])])
    // line 878
    case da_cutnoise_number_iter_label => Some([Requirement(Augmentor(AUGMENTOR__CUTNOISE__INPUT), [Yes])])
    // line 892
    case da_cutnoise_size_range_label => Some([Requirement(Augmentor(AUGMENTOR__CUTNOISE__INPUT), [Yes])])
    // line 906
    case da_misaligment_displacement_label => Some([Requirement(Augmentor(AUGMENTOR__MISALIGNMENT__INPUT), [Yes])])
    // line 920
    case da_misaligment_rotate_ratio_label => Some([Requirement(Augmentor(AUGMENTOR__MISALIGNMENT__INPUT), [Yes])])
    // line 934
    case da_missing_sections_iteration_range_label => Some([Requirement(Augmentor(AUGMENTOR__MISSING_SECTIONS__INPUT), [Yes])])
    // line 948
    case da_grid_ratio_label => Some([Requirement(Augmentor(AUGMENTOR__GRIDMASK__INPUT), [Yes])])
    // line 962
    case da_grid_d_range_label => Some([Requirement(Augmentor(AUGMENTOR__GRIDMASK__INPUT), [Yes])])
    // line 976
    case da_grid_rotate_label => Some([Requirement(Augmentor(AUGMENTOR__GRIDMASK__INPUT), [Yes])])
    // line 990
    case da_grid_invert_label => Some([Requirement(Augmentor(AUGMENTOR__GRIDMASK__INPUT), [Yes])])
    // line 1004
    case da_gaussian_noise_mean_label => Some([Requirement(Augmentor(AUGMENTOR__GAUSSIAN_NOISE__INPUT), [Yes])])
    // line 1018
    case da_gaussian_noise_var_label => Some([Requirement(Augmentor(AUGMENTOR__GAUSSIAN_NOISE__INPUT), [Yes])])
    // line 1032
    case da_gaussian_noise_use_input_img_label => Some([Requirement(Augmentor(AUGMENTOR__GAUSSIAN_NOISE__INPUT), [Yes])])
    // line 1046
    case da_salt_amount_label => Some([Requirement(Augmentor(AUGMENTOR__SALT__INPUT), [Yes])])
    // line 1060
    case da_pepper_amount_label => Some([Requirement(Augmentor(AUGMENTOR__PEPPER__INPUT), [Yes])])
    // line 1074
    case da_salt_pepper_amount_label => Some([Requirement(Augmentor(AUGMENTOR__SALT_AND_PEPPER__INPUT), [Yes])])
    // line 1088
    case da_salt_pepper_prop_label => Some([Requirement(Augmentor(AUGMENTOR__SALT_AND_PEPPER__INPUT), [Yes])])
  }

  /** The entries whose key is one of the labels and frames of the instance segmentation settings. */
  function InstanceSegViewCondition(w: InstanceSegLayout): Option<seq<Requirement>> {
    match w
    // line 1130
    case inst_seg_metrics_label => Some([Requirement(Data(DATA__TEST__LOAD_GT__INPUT), [Yes])])
    // line 1137
    case inst_seg_metrics_frame => Some([Requirement(Data(DATA__TEST__LOAD_GT__INPUT), [Yes])])
    // line 1186
    case inst_seg_b_channel_th_label => Some([Requirement(Problem(PROBLEM__INSTANCE_SEG__DATA_CHANNELS__INPUT), [BinaryMaskContours, BinaryMaskCentralPoints, BinaryMaskDistanceMap, BinaryMaskContoursForegroundMask, BinaryMaskContoursDistanceMap, BinaryMaskContoursDistanceMapWithBackground, BinaryMaskDistanceMapWithBackground]), Requirement(Problem(PROBLEM__INSTANCE_SEG__DATA_MW_TH_TYPE__INPUT), [Manual])])
    // line 1220
    case inst_seg_c_channel_th_label => Some([Requirement(Problem(PROBLEM__INSTANCE_SEG__DATA_CHANNELS__INPUT), [BinaryMaskContours, BinaryMaskContoursForegroundMask, BinaryMaskContoursDistanceMap, BinaryMaskContoursDistanceMapWithBackground]), Requirement(Problem(PROBLEM__INSTANCE_SEG__DATA_MW_TH_TYPE__INPUT), [Manual])])
    // line 1248
    case inst_seg_d_channel_th_label => Some([Requirement(Problem(PROBLEM__INSTANCE_SEG__DATA_CHANNELS__INPUT), [BinaryMaskDistanceMap, BinaryMaskContoursDistanceMap, BinaryMaskContoursDistanceMapWithBackground, BinaryMaskDistanceMapWithBackground, DistanceMapWithBackground]), Requirement(Problem(PROBLEM__INSTANCE_SEG__DATA_MW_TH_TYPE__INPUT), [Manual])])
    // line 1295
    case inst_seg_p_channel_th_label => Some([Requirement(Problem(PROBLEM__INSTANCE_SEG__DATA_CHANNELS__INPUT), [BinaryMaskCentralPoints]), Requirement(Problem(PROBLEM__INSTANCE_SEG__DATA_MW_TH_TYPE__INPUT), [Manual])])
    // line 1317
    case inst_seg_repare_large_blobs_label => Some([Requirement(Problem(PROBLEM__INSTANCE_SEG__DATA_CHANNELS__INPUT), [BinaryMaskCentralPoints])])
    // line 1331
    case inst_seg_remove_close_points_label => Some([Requirement(Problem(PROBLEM__INSTANCE_SEG__DATA_CHANNELS__INPUT), [BinaryMaskCentralPoints])])
    // line 1519; replaces the entry at line 1345
    case inst_seg_remove_close_points_radius_label => Some([Requirement(Test(TEST__POST_PROCESSING__REMOVE_CLOSE_POINTS__INST_SEG__INPUT), [Yes])])
    // line 1359
    case inst_seg_fore_mask_th_label => Some([Requirement(Problem(PROBLEM__INSTANCE_SEG__DATA_CHANNELS__INPUT), [BinaryMaskContours, BinaryMaskCentralPoints, BinaryMaskDistanceMap, BinaryMaskContoursForegroundMask, BinaryMaskContoursDistanceMap, BinaryMaskContoursDistanceMapWithBackground, BinaryMaskDistanceMapWithBackground]), Requirement(Problem(PROBLEM__INSTANCE_SEG__DATA_MW_TH_TYPE__INPUT), [Manual])])
    // line 1393
    case inst_seg_voronoi_label => Some([Requirement(Problem(PROBLEM__INSTANCE_SEG__DATA_CHANNELS__INPUT), [BinaryMaskContours, BinaryMaskContoursForegroundMask])])
    // line 1449
    case inst_seg_fore_dil_label => Some([Requirement(Problem(PROBLEM__INSTANCE_SEG__ERODE_AND_DILATE_FOREGROUND__INPUT), [Yes])])
    // line 1463
    case inst_seg_fore_ero_label => Some([Requirement(Problem(PROBLEM__INSTANCE_SEG__ERODE_AND_DILATE_FOREGROUND__INPUT), [Yes])])
    // line 1477
    case inst_seg_small_obj_fil_before_size_label => Some([Requirement(Problem(PROBLEM__INSTANCE_SEG__DATA_REMOVE_BEFORE_MW__INPUT), [Yes])])
    // line 1491
    case inst_seg_yz_filtering_size_label => Some([Requirement(Test(TEST__POST_PROCESSING__YZ_FILTERING__INST_SEG__INPUT), [Yes])])
    // line 1505
    case inst_seg_z_filtering_size_label => Some([Requirement(Test(TEST__POST_PROCESSING__Z_FILTERING__INST_SEG__INPUT), [Yes])])
    // line 1533
    case inst_seg_matching_stats_ths_label => Some([Requirement(Test(TEST__MATCHING_STATS__INPUT), [Yes])])
    // line 1547
    case inst_seg_matching_stats_colores_img_ths_label => Some([Requirement(Test(TEST__MATCHING_STATS__INPUT), [Yes])])
    // line 1561
    case inst_seg_voronoi_mask_th_label => Some([Requirement(Test(TEST__POST_PROCESSING__VORONOI_ON_MASK__INPUT), [Yes])])
  }

  /** The entries whose key is one of the labels and frames of the detection settings. */
  function DetectionViewCondition(w: DetectionLayout): Option<seq<Requirement>> {
    match w
    // line 1144
    case det_metrics_label => Some([Requirement(Data(DATA__TEST__LOAD_GT__INPUT), [Yes])])
    // line 1151
    case det_metrics_frame => Some([Requirement(Data(DATA__TEST__LOAD_GT__INPUT), [Yes])])
    // line 1575
    case det_min_th_to_be_peak_label => Some([Requirement(Test(TEST__DET_LOCAL_MAX_COORDS__INPUT), [Yes])])
    // line 1589
    case det_yz_filtering_size_label => Some([Requirement(Test(TEST__POST_PROCESSING__YZ_FILTERING__DET__INPUT), [Yes])])
    // line 1603
    case det_z_filtering_size_label => Some([Requirement(Test(TEST__POST_PROCESSING__Z_FILTERING__DET__INPUT), [Yes])])
    // line 1617
    case det_remove_close_points_radius_label => Some([Requirement(Test(TEST__POST_PROCESSING__REMOVE_CLOSE_POINTS__DET__INPUT), [Yes])])
    // line 1631
    case det_watershed_first_dilation_label => Some([Requirement(Test(TEST__POST_PROCESSING__DET_WATERSHED__INPUT), [Yes])])
    // line 1645
    case det_watershed_donuts_classes_label => Some([Requirement(Test(TEST__POST_PROCESSING__DET_WATERSHED__INPUT), [Yes])])
    // line 1659
    case det_watershed_donuts_patch_label => Some([Requirement(Test(TEST__POST_PROCESSING__DET_WATERSHED__INPUT), [Yes])])
    // line 1673
    case det_watershed_donuts_nucleus_diam_label => Some([Requirement(Test(TEST__POST_PROCESSING__DET_WATERSHED__INPUT), [Yes])])
    // line 1687
    case det_data_watetshed_check_label => Some([Requirement(Test(TEST__POST_PROCESSING__DET_WATERSHED__INPUT), [Yes])])
  }

  /** The entries whose key is one of the the other labels, frames, buttons and tabs. */
  function GeneralViewCondition(w: GeneralLayout): Option<seq<Requirement>> {
    match w
    // line 23
    case checkpoint_file_path_browse_bn => Some([Requirement(Model(MODEL__LOAD_CHECKPOINT__INPUT), [Yes])])
    // line 30
    case checkpoint_file_path_browse_label => Some([Requirement(Model(MODEL__LOAD_CHECKPOINT__INPUT), [Yes])])
    // line 37
    case checkpoint_loading_opt_label => Some([Requirement(Model(MODEL__LOAD_CHECKPOINT__INPUT), [Yes])])
    // line 44
    case checkpoint_loading_opt_frame => Some([Requirement(Model(MODEL__LOAD_CHECKPOINT__INPUT), [Yes])])
    // line 51
    case train_tab_widget => Some([Requirement(Train(TRAIN__ENABLE__INPUT), [Yes])])
    // line 58
    case percentage_validation_label => Some([Requirement(Data(DATA__VAL__TYPE__INPUT), [ExtractFromTrainSplitTraining])])
    // line 72
    case cross_validation_nfolds_label => Some([Requirement(Data(DATA__VAL__TYPE__INPUT), [ExtractFromTrainCrossValidation])])
    // line 86
    case cross_validation_fold_label => Some([Requirement(Data(DATA__VAL__TYPE__INPUT), [ExtractFromTrainCrossValidation])])
    // line 100
    case use_val_as_test => Some([Requirement(Data(DATA__VAL__TYPE__INPUT), [ExtractFromTrainCrossValidation])])
    // line 128
    case val_data_input_browse_bn => Some([Requirement(Data(DATA__VAL__TYPE__INPUT), [NotExtractedFromTrain])])
    // line 135
    case validation_data_gt_label => Some([Requirement(Data(DATA__VAL__TYPE__INPUT), [NotExtractedFromTrain])])
    // line 149
    case val_data_gt_input_browse_bn => Some([Requirement(Data(DATA__VAL__TYPE__INPUT), [NotExtractedFromTrain])])
    // line 156
    case val_in_memory_label => Some([Requirement(Data(DATA__VAL__TYPE__INPUT), [NotExtractedFromTrain])])
    // line 170
    case test_data_label => Some([Requirement(Data(DATA__VAL__TYPE__INPUT), [NotExtractedFromTrain, ExtractFromTrainSplitTraining]), Requirement(Data(DATA__TEST__USE_VAL_AS_TEST__INPUT), [No])])
    // line 194
    case test_data_input_browse_bn => Some([Requirement(Data(DATA__VAL__TYPE__INPUT), [NotExtractedFromTrain, ExtractFromTrainSplitTraining]), Requirement(Data(DATA__TEST__USE_VAL_AS_TEST__INPUT), [No])])
    // line 206
    case test_exists_gt_label => Some([Requirement(Data(DATA__VAL__TYPE__INPUT), [NotExtractedFromTrain, ExtractFromTrainSplitTraining]), Requirement(Data(DATA__TEST__USE_VAL_AS_TEST__INPUT), [No])])
    // line 230
    case test_data_gt_label => Some([Requirement(Data(DATA__VAL__TYPE__INPUT), [NotExtractedFromTrain, ExtractFromTrainSplitTraining]), Requirement(Data(DATA__TEST__USE_VAL_AS_TEST__INPUT), [No]), Requirement(Data(DATA__TEST__LOAD_GT__INPUT), [Yes])])
    // line 262
    case test_data_gt_input_browse_bn => Some([Requirement(Data(DATA__VAL__TYPE__INPUT), [NotExtractedFromTrain, ExtractFromTrainSplitTraining]), Requirement(Data(DATA__TEST__USE_VAL_AS_TEST__INPUT), [No]), Requirement(Data(DATA__TEST__LOAD_GT__INPUT), [Yes])])
    // line 278
    case test_data_in_memory_label => Some([Requirement(Data(DATA__VAL__TYPE__INPUT), [NotExtractedFromTrain, ExtractFromTrainSplitTraining]), Requirement(Data(DATA__TEST__USE_VAL_AS_TEST__INPUT), [No])])
    // line 302
    case random_val_label => Some([Requirement(Data(DATA__VAL__TYPE__INPUT), [ExtractFromTrainCrossValidation, ExtractFromTrainSplitTraining])])
    // line 319
    case validation_overlap_label => Some([Requirement(Data(DATA__VAL__TYPE__INPUT), [NotExtractedFromTrain]), Requirement(Data(DATA__TEST__USE_VAL_AS_TEST__INPUT), [No])])
    // line 337
    case validation_padding_label => Some([Requirement(Data(DATA__VAL__TYPE__INPUT), [ExtractFromTrainSplitTraining])])
    // line 358
    case adamw_weight_decay_label => Some([Requirement(Train(TRAIN__OPTIMIZER__INPUT), [ADAMW])])
    // line 365
    case profiler_batch_range_label => Some([Requirement(Train(TRAIN__PROFILER__INPUT), [Yes])])
    // line 379
    case custom_mean_label => Some([Requirement(Data(DATA__NORMALIZATION__TYPE__INPUT), [Custom])])
    // line 393
    case custom_std_label => Some([Requirement(Data(DATA__NORMALIZATION__TYPE__INPUT), [Custom])])
    // line 407
    case extract_random_patch_frame_label => Some([Requirement(Data(DATA__EXTRACT_RANDOM_PATCH__INPUT), [Yes])])
    // line 414
    case extract_random_patch_frame => Some([Requirement(Data(DATA__EXTRACT_RANDOM_PATCH__INPUT), [Yes])])
    // line 421
    case lr_schel_warmupcosine_epochs_label => Some([Requirement(Train(TRAIN__LR_SCHEDULER__NAME__INPUT), [Warmupcosine])])
    // line 435
    case lr_schel_min_lr_label => Some([Requirement(Train(TRAIN__LR_SCHEDULER__NAME__INPUT), [Warmupcosine, Reduceonplateau])])
    // line 451
    case lr_schel_reduce_on_plat_patience_label => Some([Requirement(Train(TRAIN__LR_SCHEDULER__NAME__INPUT), [Reduceonplateau])])
    // line 465
    case lr_schel_reduce_on_plat_factor_label => Some([Requirement(Train(TRAIN__LR_SCHEDULER__NAME__INPUT), [Reduceonplateau])])
    // line 1102
    case ssl_resizing_factor_label => Some([Requirement(Problem(PROBLEM__SELF_SUPERVISED__PRETEXT_TASK__INPUT), [Yes])])
    // line 1116
    case ssl_noise_label => Some([Requirement(Problem(PROBLEM__SELF_SUPERVISED__PRETEXT_TASK__INPUT), [Yes])])
    // line 1123
    case test_tab_widget => Some([Requirement(Test(TEST__ENABLE__INPUT), [Yes])])
    // line 1158
    case sem_seg_yz_filtering_size_label => Some([Requirement(Test(TEST__POST_PROCESSING__YZ_FILTERING__SEM_SEG__INPUT), [Yes])])
    // line 1172
    case sem_seg_z_filtering_size_label => Some([Requirement(Test(TEST__POST_PROCESSING__Z_FILTERING__SEM_SEG__INPUT), [Yes])])
    // line 1703
    case unet_model_like_frame => Some([Requirement(Model(MODEL__ARCHITECTURE__INPUT), [UNet, ResidualUNet, ResUNetPlusPlus, AttentionUNet, MultiResUnet, SEUnet])])
    // line 1715
    case unet_model_like_label => Some([Requirement(Model(MODEL__ARCHITECTURE__INPUT), [UNet, ResidualUNet, ResUNetPlusPlus, AttentionUNet, MultiResUnet, SEUnet])])
    // line 1727
    case sr_unet_like_heading => Some([Requirement(Model(MODEL__ARCHITECTURE__INPUT), [UNet, ResidualUNet, ResUNetPlusPlus, AttentionUNet, MultiResUnet, SEUnet])])
    // line 1739
    case sr_unet_like_frame => Some([Requirement(Model(MODEL__ARCHITECTURE__INPUT), [UNet, ResidualUNet, ResUNetPlusPlus, AttentionUNet, MultiResUnet, SEUnet])])
    // line 1751
    case transformers_frame => Some([Requirement(Model(MODEL__ARCHITECTURE__INPUT), [MAE, UNETR, ViT])])
    // line 1760
    case transformers_label => Some([Requirement(Model(MODEL__ARCHITECTURE__INPUT), [MAE, UNETR, ViT])])
    // line 1769
    case unetr_vit_hidden_multiple_label => Some([Requirement(Model(MODEL__ARCHITECTURE__INPUT), [UNETR])])
    // line 1783
    case unetr_num_filters_label => Some([Requirement(Model(MODEL__ARCHITECTURE__INPUT), [UNETR])])
    // line 1797
    case unetr_dec_act_label => Some([Requirement(Model(MODEL__ARCHITECTURE__INPUT), [UNETR])])
  }
}
